/** The 27 second-order stencils: their coefficient tables, the cells to which each
    applies, and the one-dimensional stencils of which every table is made. */
module Stencils {

  /** The interior stencil and those for cells at the low or high ends of the domain
      in one, two or three directions. */
  datatype Stencil =
    | Interior
    | Ilo
    | Jlo
    | Klo
    | Ihi
    | Jhi
    | Khi
    | IloJlo
    | JloKlo
    | IloKlo
    | IhiJhi
    | JhiKhi
    | IhiKhi
    | IloJhi
    | JloKhi
    | IloKhi
    | IhiJlo
    | JhiKlo
    | IhiKlo
    | IloJloKlo
    | IloJhiKlo
    | IhiJloKlo
    | IhiJhiKlo
    | IloJloKhi
    | IloJhiKhi
    | IhiJloKhi
    | IhiJhiKhi

  /** Coefficients of the values at the next, the same and the previous index. */
  datatype Row = Row(next: real, same: real, prev: real)

  /** Rows for the three directions. */
  datatype Rows = Rows(x: Row, y: Row, z: Row)

  /** First derivative, second derivative and filter. */
  datatype Table = Table(c: Rows, s: Rows, f: Rows)

  function TableOf(st: Stencil): Table {
    match st
    case Interior => Table(
      Rows(Row(0.5, 0.0, -0.5), Row(0.5, 0.0, -0.5), Row(0.5, 0.0, -0.5)),
      Rows(Row(1.0, -2.0, 1.0), Row(1.0, -2.0, 1.0), Row(1.0, -2.0, 1.0)),
      Rows(Row(0.25, 0.5, 0.25), Row(0.25, 0.5, 0.25), Row(0.25, 0.5, 0.25)))
    case Ilo => Table(
      Rows(Row(1.0 / 3.0, 1.0, -4.0 / 3.0), Row(0.5, 0.0, -0.5), Row(0.5, 0.0, -0.5)),
      Rows(Row(4.0 / 3.0, -4.0, 8.0 / 3.0), Row(1.0, -2.0, 1.0), Row(1.0, -2.0, 1.0)),
      Rows(Row(0.125, 0.625, 0.25), Row(0.25, 0.5, 0.25), Row(0.25, 0.5, 0.25)))
    case Jlo => Table(
      Rows(Row(0.5, 0.0, -0.5), Row(1.0 / 3.0, 1.0, -4.0 / 3.0), Row(0.5, 0.0, -0.5)),
      Rows(Row(1.0, -2.0, 1.0), Row(4.0 / 3.0, -4.0, 8.0 / 3.0), Row(1.0, -2.0, 1.0)),
      Rows(Row(0.25, 0.5, 0.25), Row(0.125, 0.625, 0.25), Row(0.25, 0.5, 0.25)))
    case Klo => Table(
      Rows(Row(0.5, 0.0, -0.5), Row(0.5, 0.0, -0.5), Row(1.0 / 3.0, 1.0, -4.0 / 3.0)),
      Rows(Row(1.0, -2.0, 1.0), Row(1.0, -2.0, 1.0), Row(4.0 / 3.0, -4.0, 8.0 / 3.0)),
      Rows(Row(0.25, 0.5, 0.25), Row(0.25, 0.5, 0.25), Row(0.125, 0.625, 0.25)))
    case Ihi => Table(
      Rows(Row(4.0 / 3.0, -1.0, -1.0 / 3.0), Row(0.5, 0.0, -0.5), Row(0.5, 0.0, -0.5)),
      Rows(Row(8.0 / 3.0, -4.0, 4.0 / 3.0), Row(1.0, -2.0, 1.0), Row(1.0, -2.0, 1.0)),
      Rows(Row(0.25, 0.625, 0.125), Row(0.25, 0.5, 0.25), Row(0.25, 0.5, 0.25)))
    case Jhi => Table(
      Rows(Row(0.5, 0.0, -0.5), Row(4.0 / 3.0, -1.0, -1.0 / 3.0), Row(0.5, 0.0, -0.5)),
      Rows(Row(1.0, -2.0, 1.0), Row(8.0 / 3.0, -4.0, 4.0 / 3.0), Row(1.0, -2.0, 1.0)),
      Rows(Row(0.25, 0.5, 0.25), Row(0.25, 0.625, 0.125), Row(0.25, 0.5, 0.25)))
    case Khi => Table(
      Rows(Row(0.5, 0.0, -0.5), Row(0.5, 0.0, -0.5), Row(4.0 / 3.0, -1.0, -1.0 / 3.0)),
      Rows(Row(1.0, -2.0, 1.0), Row(1.0, -2.0, 1.0), Row(8.0 / 3.0, -4.0, 4.0 / 3.0)),
      Rows(Row(0.25, 0.5, 0.25), Row(0.25, 0.5, 0.25), Row(0.25, 0.625, 0.125)))
    case IloJlo => Table(
      Rows(Row(1.0 / 3.0, 1.0, -4.0 / 3.0), Row(1.0 / 3.0, 1.0, -4.0 / 3.0), Row(0.5, 0.0, -0.5)),
      Rows(Row(4.0 / 3.0, -4.0, 8.0 / 3.0), Row(4.0 / 3.0, -4.0, 8.0 / 3.0), Row(1.0, -2.0, 1.0)),
      Rows(Row(0.125, 0.625, 0.25), Row(0.125, 0.625, 0.25), Row(0.25, 0.5, 0.25)))
    case JloKlo => Table(
      Rows(Row(0.5, 0.0, -0.5), Row(1.0 / 3.0, 1.0, -4.0 / 3.0), Row(1.0 / 3.0, 1.0, -4.0 / 3.0)),
      Rows(Row(1.0, -2.0, 1.0), Row(4.0 / 3.0, -4.0, 8.0 / 3.0), Row(4.0 / 3.0, -4.0, 8.0 / 3.0)),
      Rows(Row(0.25, 0.5, 0.25), Row(0.125, 0.625, 0.25), Row(0.125, 0.625, 0.25)))
    case IloKlo => Table(
      Rows(Row(1.0 / 3.0, 1.0, -4.0 / 3.0), Row(0.5, 0.0, -0.5), Row(1.0 / 3.0, 1.0, -4.0 / 3.0)),
      Rows(Row(4.0 / 3.0, -4.0, 8.0 / 3.0), Row(1.0, -2.0, 1.0), Row(4.0 / 3.0, -4.0, 8.0 / 3.0)),
      Rows(Row(0.125, 0.625, 0.25), Row(0.25, 0.5, 0.25), Row(0.125, 0.625, 0.25)))
    case IhiJhi => Table(
      Rows(Row(4.0 / 3.0, -1.0, -1.0 / 3.0), Row(4.0 / 3.0, -1.0, -1.0 / 3.0), Row(0.5, 0.0, -0.5)),
      Rows(Row(8.0 / 3.0, -4.0, 4.0 / 3.0), Row(8.0 / 3.0, -4.0, 4.0 / 3.0), Row(1.0, -2.0, 1.0)),
      Rows(Row(0.25, 0.625, 0.125), Row(0.25, 0.625, 0.125), Row(0.25, 0.5, 0.25)))
    case JhiKhi => Table(
      Rows(Row(0.5, 0.0, -0.5), Row(4.0 / 3.0, -1.0, -1.0 / 3.0), Row(4.0 / 3.0, -1.0, -1.0 / 3.0)),
      Rows(Row(1.0, -2.0, 1.0), Row(8.0 / 3.0, -4.0, 4.0 / 3.0), Row(8.0 / 3.0, -4.0, 4.0 / 3.0)),
      Rows(Row(0.25, 0.5, 0.25), Row(0.25, 0.625, 0.125), Row(0.25, 0.625, 0.125)))
    case IhiKhi => Table(
      Rows(Row(4.0 / 3.0, -1.0, -1.0 / 3.0), Row(0.5, 0.0, -0.5), Row(4.0 / 3.0, -1.0, -1.0 / 3.0)),
      Rows(Row(8.0 / 3.0, -4.0, 4.0 / 3.0), Row(1.0, -2.0, 1.0), Row(8.0 / 3.0, -4.0, 4.0 / 3.0)),
      Rows(Row(0.25, 0.625, 0.125), Row(0.25, 0.5, 0.25), Row(0.25, 0.625, 0.125)))
    case IloJhi => Table(
      Rows(Row(1.0 / 3.0, 1.0, -4.0 / 3.0), Row(4.0 / 3.0, -1.0, -1.0 / 3.0), Row(0.5, 0.0, -0.5)),
      Rows(Row(4.0 / 3.0, -4.0, 8.0 / 3.0), Row(8.0 / 3.0, -4.0, 4.0 / 3.0), Row(1.0, -2.0, 1.0)),
      Rows(Row(0.125, 0.625, 0.25), Row(0.25, 0.625, 0.125), Row(0.25, 0.5, 0.25)))
    case JloKhi => Table(
      Rows(Row(0.5, 0.0, -0.5), Row(1.0 / 3.0, 1.0, -4.0 / 3.0), Row(4.0 / 3.0, -1.0, -1.0 / 3.0)),
      Rows(Row(1.0, -2.0, 1.0), Row(4.0 / 3.0, -4.0, 8.0 / 3.0), Row(8.0 / 3.0, -4.0, 4.0 / 3.0)),
      Rows(Row(0.25, 0.5, 0.25), Row(0.125, 0.625, 0.25), Row(0.25, 0.625, 0.125)))
    case IloKhi => Table(
      Rows(Row(1.0 / 3.0, 1.0, -4.0 / 3.0), Row(0.5, 0.0, -0.5), Row(4.0 / 3.0, -1.0, -1.0 / 3.0)),
      Rows(Row(4.0 / 3.0, -4.0, 8.0 / 3.0), Row(1.0, -2.0, 1.0), Row(8.0 / 3.0, -4.0, 4.0 / 3.0)),
      Rows(Row(0.125, 0.625, 0.25), Row(0.25, 0.5, 0.25), Row(0.25, 0.625, 0.125)))
    case IhiJlo => Table(
      Rows(Row(4.0 / 3.0, -1.0, -1.0 / 3.0), Row(1.0 / 3.0, 1.0, -4.0 / 3.0), Row(0.5, 0.0, -0.5)),
      Rows(Row(8.0 / 3.0, -4.0, 4.0 / 3.0), Row(4.0 / 3.0, -4.0, 8.0 / 3.0), Row(1.0, -2.0, 1.0)),
      Rows(Row(0.25, 0.625, 0.125), Row(0.125, 0.625, 0.25), Row(0.25, 0.5, 0.25)))
    case JhiKlo => Table(
      Rows(Row(0.5, 0.0, -0.5), Row(4.0 / 3.0, -1.0, -1.0 / 3.0), Row(1.0 / 3.0, 1.0, -4.0 / 3.0)),
      Rows(Row(1.0, -2.0, 1.0), Row(8.0 / 3.0, -4.0, 4.0 / 3.0), Row(4.0 / 3.0, -4.0, 8.0 / 3.0)),
      Rows(Row(0.25, 0.5, 0.25), Row(0.25, 0.625, 0.125), Row(0.125, 0.625, 0.25)))
    case IhiKlo => Table(
      Rows(Row(4.0 / 3.0, -1.0, -1.0 / 3.0), Row(0.5, 0.0, -0.5), Row(1.0 / 3.0, 1.0, -4.0 / 3.0)),
      Rows(Row(8.0 / 3.0, -4.0, 4.0 / 3.0), Row(1.0, -2.0, 1.0), Row(4.0 / 3.0, -4.0, 8.0 / 3.0)),
      Rows(Row(0.25, 0.625, 0.125), Row(0.25, 0.5, 0.25), Row(0.125, 0.625, 0.25)))
    case IloJloKlo => Table(
      Rows(Row(1.0 / 3.0, 1.0, -4.0 / 3.0), Row(1.0 / 3.0, 1.0, -4.0 / 3.0), Row(1.0 / 3.0, 1.0, -4.0 / 3.0)),
      Rows(Row(4.0 / 3.0, -4.0, 8.0 / 3.0), Row(4.0 / 3.0, -4.0, 8.0 / 3.0), Row(4.0 / 3.0, -4.0, 8.0 / 3.0)),
      Rows(Row(0.125, 0.625, 0.25), Row(0.125, 0.625, 0.25), Row(0.125, 0.625, 0.25)))
    case IloJhiKlo => Table(
      Rows(Row(1.0 / 3.0, 1.0, -4.0 / 3.0), Row(4.0 / 3.0, -1.0, -1.0 / 3.0), Row(1.0 / 3.0, 1.0, -4.0 / 3.0)),
      Rows(Row(4.0 / 3.0, -4.0, 8.0 / 3.0), Row(8.0 / 3.0, -4.0, 4.0 / 3.0), Row(4.0 / 3.0, -4.0, 8.0 / 3.0)),
      Rows(Row(0.125, 0.625, 0.25), Row(0.25, 0.625, 0.125), Row(0.125, 0.625, 0.25)))
    case IhiJloKlo => Table(
      Rows(Row(4.0 / 3.0, -1.0, -1.0 / 3.0), Row(1.0 / 3.0, 1.0, -4.0 / 3.0), Row(1.0 / 3.0, 1.0, -4.0 / 3.0)),
      Rows(Row(8.0 / 3.0, -4.0, 4.0 / 3.0), Row(4.0 / 3.0, -4.0, 8.0 / 3.0), Row(4.0 / 3.0, -4.0, 8.0 / 3.0)),
      Rows(Row(0.25, 0.625, 0.125), Row(0.125, 0.625, 0.25), Row(0.125, 0.625, 0.25)))
    case IhiJhiKlo => Table(
      Rows(Row(4.0 / 3.0, -1.0, -1.0 / 3.0), Row(4.0 / 3.0, -1.0, -1.0 / 3.0), Row(1.0 / 3.0, 1.0, -4.0 / 3.0)),
      Rows(Row(8.0 / 3.0, -4.0, 4.0 / 3.0), Row(8.0 / 3.0, -4.0, 4.0 / 3.0), Row(4.0 / 3.0, -4.0, 8.0 / 3.0)),
      Rows(Row(0.25, 0.625, 0.125), Row(0.25, 0.625, 0.125), Row(0.125, 0.625, 0.25)))
    case IloJloKhi => Table(
      Rows(Row(1.0 / 3.0, 1.0, -4.0 / 3.0), Row(1.0 / 3.0, 1.0, -4.0 / 3.0), Row(4.0 / 3.0, -1.0, -1.0 / 3.0)),
      Rows(Row(4.0 / 3.0, -4.0, 8.0 / 3.0), Row(4.0 / 3.0, -4.0, 8.0 / 3.0), Row(8.0 / 3.0, -4.0, 4.0 / 3.0)),
      Rows(Row(0.125, 0.625, 0.25), Row(0.125, 0.625, 0.25), Row(0.25, 0.625, 0.125)))
    case IloJhiKhi => Table(
      Rows(Row(1.0 / 3.0, 1.0, -4.0 / 3.0), Row(4.0 / 3.0, -1.0, -1.0 / 3.0), Row(4.0 / 3.0, -1.0, -1.0 / 3.0)),
      Rows(Row(4.0 / 3.0, -4.0, 8.0 / 3.0), Row(8.0 / 3.0, -4.0, 4.0 / 3.0), Row(8.0 / 3.0, -4.0, 4.0 / 3.0)),
      Rows(Row(0.125, 0.625, 0.25), Row(0.25, 0.625, 0.125), Row(0.25, 0.625, 0.125)))
    case IhiJloKhi => Table(
      Rows(Row(4.0 / 3.0, -1.0, -1.0 / 3.0), Row(1.0 / 3.0, 1.0, -4.0 / 3.0), Row(4.0 / 3.0, -1.0, -1.0 / 3.0)),
      Rows(Row(8.0 / 3.0, -4.0, 4.0 / 3.0), Row(4.0 / 3.0, -4.0, 8.0 / 3.0), Row(8.0 / 3.0, -4.0, 4.0 / 3.0)),
      Rows(Row(0.25, 0.625, 0.125), Row(0.125, 0.625, 0.25), Row(0.25, 0.625, 0.125)))
    case IhiJhiKhi => Table(
      Rows(Row(4.0 / 3.0, -1.0, -1.0 / 3.0), Row(4.0 / 3.0, -1.0, -1.0 / 3.0), Row(4.0 / 3.0, -1.0, -1.0 / 3.0)),
      Rows(Row(8.0 / 3.0, -4.0, 4.0 / 3.0), Row(8.0 / 3.0, -4.0, 4.0 / 3.0), Row(8.0 / 3.0, -4.0, 4.0 / 3.0)),
      Rows(Row(0.25, 0.625, 0.125), Row(0.25, 0.625, 0.125), Row(0.25, 0.625, 0.125)))
  }

  // ------------------------------------------- stencils made of one-dimensional ones

  /** Which one-dimensional stencil is used in a direction. */
  datatype Side = Lo | Mid | Hi

  datatype Sides = Sides(x: Side, y: Side, z: Side)

  function SidesOf(st: Stencil): Sides {
    match st
    case Interior => Sides(Mid, Mid, Mid)
    case Ilo => Sides(Lo, Mid, Mid)
    case Jlo => Sides(Mid, Lo, Mid)
    case Klo => Sides(Mid, Mid, Lo)
    case Ihi => Sides(Hi, Mid, Mid)
    case Jhi => Sides(Mid, Hi, Mid)
    case Khi => Sides(Mid, Mid, Hi)
    case IloJlo => Sides(Lo, Lo, Mid)
    case JloKlo => Sides(Mid, Lo, Lo)
    case IloKlo => Sides(Lo, Mid, Lo)
    case IhiJhi => Sides(Hi, Hi, Mid)
    case JhiKhi => Sides(Mid, Hi, Hi)
    case IhiKhi => Sides(Hi, Mid, Hi)
    case IloJhi => Sides(Lo, Hi, Mid)
    case JloKhi => Sides(Mid, Lo, Hi)
    case IloKhi => Sides(Lo, Mid, Hi)
    case IhiJlo => Sides(Hi, Lo, Mid)
    case JhiKlo => Sides(Mid, Hi, Lo)
    case IhiKlo => Sides(Hi, Mid, Lo)
    case IloJloKlo => Sides(Lo, Lo, Lo)
    case IloJhiKlo => Sides(Lo, Hi, Lo)
    case IhiJloKlo => Sides(Hi, Lo, Lo)
    case IhiJhiKlo => Sides(Hi, Hi, Lo)
    case IloJloKhi => Sides(Lo, Lo, Hi)
    case IloJhiKhi => Sides(Lo, Hi, Hi)
    case IhiJloKhi => Sides(Hi, Lo, Hi)
    case IhiJhiKhi => Sides(Hi, Hi, Hi)
  }

  datatype Domain = Domain(ilo: int, ihi: int, jlo: int, jhi: int, klo: int, khi: int)

  /** A side asked of a direction is met at index `i`. */
  predicate Meets(s: Side, i: int, lo: int, hi: int) {
    match s
    case Lo => i == lo
    case Mid => true
    case Hi => i == hi
  }

  predicate MeetsAll(s: Sides, i: int, j: int, k: int, d: Domain) {
    Meets(s.x, i, d.ilo, d.ihi) && Meets(s.y, j, d.jlo, d.jhi) && Meets(s.z, k, d.klo, d.khi)
  }

  /** The cells that the stencil's sweep overwrites: those that meet the stencil's side in
      each direction. */
  predicate AppliesTo(st: Stencil, i: int, j: int, k: int, d: Domain): (b: bool)
    ensures b <==> MeetsAll(SidesOf(st), i, j, k, d)
  {
    match st
    case Interior => true
    case Ilo => i == d.ilo
    case Jlo => j == d.jlo
    case Klo => k == d.klo
    case Ihi => i == d.ihi
    case Jhi => j == d.jhi
    case Khi => k == d.khi
    case IloJlo => i == d.ilo && j == d.jlo
    case JloKlo => j == d.jlo && k == d.klo
    case IloKlo => i == d.ilo && k == d.klo
    case IhiJhi => i == d.ihi && j == d.jhi
    case JhiKhi => j == d.jhi && k == d.khi
    case IhiKhi => i == d.ihi && k == d.khi
    case IloJhi => i == d.ilo && j == d.jhi
    case JloKhi => j == d.jlo && k == d.khi
    case IloKhi => i == d.ilo && k == d.khi
    case IhiJlo => i == d.ihi && j == d.jlo
    case JhiKlo => j == d.jhi && k == d.klo
    case IhiKlo => i == d.ihi && k == d.klo
    case IloJloKlo => i == d.ilo && j == d.jlo && k == d.klo
    case IloJhiKlo => i == d.ilo && j == d.jhi && k == d.klo
    case IhiJloKlo => i == d.ihi && j == d.jlo && k == d.klo
    case IhiJhiKlo => i == d.ihi && j == d.jhi && k == d.klo
    case IloJloKhi => i == d.ilo && j == d.jlo && k == d.khi
    case IloJhiKhi => i == d.ilo && j == d.jhi && k == d.khi
    case IhiJloKhi => i == d.ihi && j == d.jlo && k == d.khi
    case IhiJhiKhi => i == d.ihi && j == d.jhi && k == d.khi
  }

  function FirstRow(s: Side): Row {
    match s
    case Lo => Row(1.0 / 3.0, 1.0, -4.0 / 3.0)
    case Mid => Row(0.5, 0.0, -0.5)
    case Hi => Row(4.0 / 3.0, -1.0, -1.0 / 3.0)
  }

  function SecondRow(s: Side): Row {
    match s
    case Lo => Row(4.0 / 3.0, -4.0, 8.0 / 3.0)
    case Mid => Row(1.0, -2.0, 1.0)
    case Hi => Row(8.0 / 3.0, -4.0, 4.0 / 3.0)
  }

  function FilterRow(s: Side): Row {
    match s
    case Lo => Row(0.125, 0.625, 0.25)
    case Mid => Row(0.25, 0.5, 0.25)
    case Hi => Row(0.25, 0.625, 0.125)
  }

  function TableFor(s: Sides): Table {
    Table(Rows(FirstRow(s.x), FirstRow(s.y), FirstRow(s.z)),
          Rows(SecondRow(s.x), SecondRow(s.y), SecondRow(s.z)),
          Rows(FilterRow(s.x), FilterRow(s.y), FilterRow(s.z)))
  }

  /** Each of the 27 tables takes its three rows from the three directions separately. */
  lemma TablesAreDirectional(st: Stencil)
    ensures TableOf(st) == TableFor(SidesOf(st))
  {
    match st
    case _ =>
  }

  function StencilFor(s: Sides): (st: Stencil)
    ensures SidesOf(st) == s
  {
    match s
    case Sides(Mid, Mid, Mid) => Interior
    case Sides(Lo, Mid, Mid) => Ilo
    case Sides(Hi, Mid, Mid) => Ihi
    case Sides(Mid, Lo, Mid) => Jlo
    case Sides(Mid, Hi, Mid) => Jhi
    case Sides(Mid, Mid, Lo) => Klo
    case Sides(Mid, Mid, Hi) => Khi
    case Sides(Lo, Lo, Mid) => IloJlo
    case Sides(Lo, Hi, Mid) => IloJhi
    case Sides(Hi, Lo, Mid) => IhiJlo
    case Sides(Hi, Hi, Mid) => IhiJhi
    case Sides(Lo, Mid, Lo) => IloKlo
    case Sides(Lo, Mid, Hi) => IloKhi
    case Sides(Hi, Mid, Lo) => IhiKlo
    case Sides(Hi, Mid, Hi) => IhiKhi
    case Sides(Mid, Lo, Lo) => JloKlo
    case Sides(Mid, Lo, Hi) => JloKhi
    case Sides(Mid, Hi, Lo) => JhiKlo
    case Sides(Mid, Hi, Hi) => JhiKhi
    case Sides(Lo, Lo, Lo) => IloJloKlo
    case Sides(Lo, Lo, Hi) => IloJloKhi
    case Sides(Lo, Hi, Lo) => IloJhiKlo
    case Sides(Lo, Hi, Hi) => IloJhiKhi
    case Sides(Hi, Lo, Lo) => IhiJloKlo
    case Sides(Hi, Lo, Hi) => IhiJloKhi
    case Sides(Hi, Hi, Lo) => IhiJhiKlo
    case Sides(Hi, Hi, Hi) => IhiJhiKhi
  }
}
