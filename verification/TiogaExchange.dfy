/** The buffer through which solution fields are exchanged with the overset library. */
module TiogaExchange {

  /** The values of one component at all points. */
  datatype Component = Component(values: seq<real>)

  datatype Name = Name(text: string)

  type Fields = map<Name, seq<Component>>

  ghost predicate AllKnown(vars: seq<Name>, fields: Fields) { forall v :: 0 <= v < |vars| ==> vars[v] in fields }

  /** First buffer component of variable `v`; for `v == |vars|`, the size of the buffer. */
  function Offset(vars: seq<Name>, fields: Fields, v: nat): nat
    requires AllKnown(vars, fields) && v <= |vars|
  {
    if v == 0 then 0 else Offset(vars, fields, v - 1) + |fields[vars[v - 1]]|
  }

  lemma {:induction false} OffsetsRise(vars: seq<Name>, fields: Fields, v: nat, w: nat)
    requires AllKnown(vars, fields) && v < w <= |vars|
    ensures Offset(vars, fields, v) + |fields[vars[v]]| <= Offset(vars, fields, w)
    decreases w
  {
    if v < w - 1 {
      OffsetsRise(vars, fields, v, w - 1);
    }
  }

  /** Buffer component `c` holds component `n` of variable `v`. */
  predicate Belongs(vars: seq<Name>, fields: Fields, v: nat, n: nat, c: nat)
    requires AllKnown(vars, fields)
  {
    v < |vars| && n < |fields[vars[v]]| && c == Offset(vars, fields, v) + n
  }

  /** The offsets tile the buffer: every component below the total belongs to exactly
      one component of exactly one variable, and none beyond it does. */
  lemma {:induction false} OffsetsTile(vars: seq<Name>, fields: Fields, c: nat, m: nat)
    requires AllKnown(vars, fields) && m <= |vars|
    ensures c < Offset(vars, fields, m) <==> exists v: nat, n: nat :: v < m && Belongs(vars, fields, v, n, c)
    decreases m
  {
    if m > 0 {
      OffsetsTile(vars, fields, c, m - 1);
      if Offset(vars, fields, m - 1) <= c < Offset(vars, fields, m) {
        assert Belongs(vars, fields, m - 1, c - Offset(vars, fields, m - 1), c);
      }
    }
  }

  lemma OffsetsNeverOverlap(vars: seq<Name>, fields: Fields, c: nat, v: nat, n: nat, w: nat, m: nat)
    requires AllKnown(vars, fields) && Belongs(vars, fields, v, n, c) && Belongs(vars, fields, w, m, c)
    ensures v == w && n == m
  {
    if v < w {
      OffsetsRise(vars, fields, v, w);
    } else if w < v {
      OffsetsRise(vars, fields, w, v);
    }
  }

  /** The part of a buffer that starts at `at` and is as long as `values`. */
  ghost predicate PartIs(q: seq<Component>, at: nat, values: seq<Component>) {
    at + |values| <= |q| && q[at..at + |values|] == values
  }

  /** A buffer holds variable `v` at its offset. */
  ghost predicate VarIn(q: seq<Component>, vars: seq<Name>, fields: Fields, v: nat)
    requires AllKnown(vars, fields) && v < |vars|
  {
    PartIs(q, Offset(vars, fields, v), fields[vars[v]])
  }

  /** The buffer holds the first `m` variables. */
  ghost predicate Holds(q: seq<Component>, vars: seq<Name>, fields: Fields, m: nat)
    requires AllKnown(vars, fields) && m <= |vars|
  {
    forall v :: 0 <= v < m ==> VarIn(q, vars, fields, v)
  }

  method CountComponents(vars: seq<Name>, fields: Fields) returns (ok: bool, total: nat)
    ensures ok <==> AllKnown(vars, fields)
    ensures ok ==> total == Offset(vars, fields, |vars|)
  {
    total := 0;
    for v := 0 to |vars|
      invariant forall w :: 0 <= w < v ==> vars[w] in fields
      invariant AllKnown(vars, fields) ==> total == Offset(vars, fields, v)
    {
      if vars[v] !in fields {
        return false, 0;
      }
      total := total + |fields[vars[v]]|;
    }
    ok := true;
  }

  /** Copies `ncomp` components from `from` on of one list over those from `to` on of another. */
  method Copy(dst: seq<Component>, src: seq<Component>, from: nat, to: nat, ncomp: nat) returns (r: seq<Component>)
    requires from + ncomp <= |src| && to + ncomp <= |dst|
    ensures r == dst[..to] + src[from..from + ncomp] + dst[to + ncomp..]
  {
    r := dst;
    for n := 0 to ncomp
      invariant r == dst[..to] + src[from..from + n] + dst[to + n..]
    {
      r := r[to + n := src[from + n]];
    }
  }

  lemma PartKept(q: seq<Component>, r: seq<Component>, mid: seq<Component>, to: nat, at: nat, values: seq<Component>)
    requires PartIs(q, at, values) && at + |values| <= to && to + |mid| <= |q| && r == q[..to] + mid + q[to + |mid|..]
    ensures PartIs(r, at, values)
  {
  }

  lemma PartReplaced(q: seq<Component>, r: seq<Component>, mid: seq<Component>, to: nat)
    requires to + |mid| <= |q| && r == q[..to] + mid + q[to + |mid|..]
    ensures PartIs(r, to, mid)
  {
  }

  lemma HoldsNext(q: seq<Component>, r: seq<Component>, vars: seq<Name>, fields: Fields, m: nat)
    requires AllKnown(vars, fields) && m < |vars| && Holds(q, vars, fields, m) && Offset(vars, fields, m + 1) <= |q|
    requires r == q[..Offset(vars, fields, m)] + fields[vars[m]] + q[Offset(vars, fields, m + 1)..]
    ensures Holds(r, vars, fields, m + 1)
  {
    var to, mid := Offset(vars, fields, m), fields[vars[m]];
    forall v | 0 <= v < m + 1
      ensures VarIn(r, vars, fields, v)
    {
      if v < m {
        OffsetsRise(vars, fields, v, m);
        assert VarIn(q, vars, fields, v);
        PartKept(q, r, mid, to, Offset(vars, fields, v), fields[vars[v]]);
      } else {
        PartReplaced(q, r, mid, to);
      }
    }
  }

  /** Two states of the fields agree on names and component counts. */
  ghost predicate SameShape(a: Fields, b: Fields) {
    a.Keys == b.Keys && forall name :: name in a ==> |a[name]| == |b[name]|
  }

  lemma {:induction false} SameOffsets(vars: seq<Name>, a: Fields, b: Fields, v: nat)
    requires AllKnown(vars, a) && AllKnown(vars, b) && SameShape(a, b) && v <= |vars|
    ensures Offset(vars, a, v) == Offset(vars, b, v)
  {
    if v > 0 {
      SameOffsets(vars, a, b, v - 1);
    }
  }

  /** No variable after `v` and before `m` has the same name. */
  predicate LastOf(vars: seq<Name>, v: nat, m: nat)
    requires v < |vars| && m <= |vars|
  {
    forall w :: v < w < m ==> vars[w] != vars[v]
  }

  /** One of the first `m` variables has this name. */
  predicate Listed(vars: seq<Name>, name: Name, m: nat)
    requires m <= |vars|
  {
    exists v :: 0 <= v < m && vars[v] == name
  }

  /** Filling of the ghost cells of a field. It keeps the components, and doing it again
      changes nothing. */
  type Filling = (Name, seq<Component>) -> seq<Component>

  ghost predicate Fills(fill: Filling) { forall name, x :: FillsOne(fill, name, x) }

  ghost predicate FillsOne(fill: Filling, name: Name, x: seq<Component>) {
    |fill(name, x)| == |x| && fill(name, fill(name, x)) == fill(name, x)
  }

  /** The fields among the first `m` variables have been filled, the others left alone. */
  ghost predicate FilledUpTo(before: Fields, after: Fields, vars: seq<Name>, m: nat, fill: Filling)
    requires m <= |vars|
  {
    && after.Keys == before.Keys
    && forall name :: name in before ==>
         after[name] == if Listed(vars, name, m) then fill(name, before[name]) else before[name]
  }

  lemma ListedNext(vars: seq<Name>, name: Name, m: nat)
    requires m < |vars|
    ensures Listed(vars, name, m + 1) <==> Listed(vars, name, m) || vars[m] == name
  {
    if vars[m] == name {
      assert Listed(vars, name, m + 1);
    }
  }

  lemma FilledNext(before: Fields, fields: Fields, vars: seq<Name>, m: nat, fill: Filling)
    requires AllKnown(vars, before) && m < |vars| && FilledUpTo(before, fields, vars, m, fill) && Fills(fill)
    ensures FilledUpTo(before, fields[vars[m] := fill(vars[m], fields[vars[m]])], vars, m + 1, fill)
  {
    forall name | name in before
      ensures Listed(vars, name, m + 1) <==> Listed(vars, name, m) || vars[m] == name
    {
      ListedNext(vars, name, m);
    }
    assert FillsOne(fill, vars[m], before[vars[m]]);
  }

  lemma FilledShape(before: Fields, after: Fields, vars: seq<Name>, m: nat, fill: Filling)
    requires m <= |vars| && FilledUpTo(before, after, vars, m, fill) && Fills(fill)
    ensures SameShape(before, after)
  {
    forall name | name in before
      ensures |after[name]| == |before[name]|
    {
      assert FillsOne(fill, name, before[name]);
    }
  }

  /** Filling a variable that was filled before does not disturb what is in the buffer. */
  lemma HoldsAfterFill(q: seq<Component>, vars: seq<Name>, before: Fields, fields: Fields, m: nat, fill: Filling)
    requires AllKnown(vars, before) && m < |vars| && FilledUpTo(before, fields, vars, m, fill) && Fills(fill)
    requires Holds(q, vars, fields, m)
    ensures Holds(q, vars, fields[vars[m] := fill(vars[m], fields[vars[m]])], m)
  {
    var after := fields[vars[m] := fill(vars[m], fields[vars[m]])];
    assert FillsOne(fill, vars[m], fields[vars[m]]) && FillsOne(fill, vars[m], before[vars[m]]);
    forall v | 0 <= v < m
      ensures VarIn(q, vars, after, v)
    {
      assert VarIn(q, vars, fields, v) && Listed(vars, vars[v], m);
      SameOffsets(vars, fields, after, v);
    }
  }

  /** The first `m` variables are filled and stand in the buffer. */
  ghost predicate Packed(before: Fields, after: Fields, q: seq<Component>, vars: seq<Name>, m: nat, fill: Filling)
    requires AllKnown(vars, before) && m <= |vars|
  {
    && FilledUpTo(before, after, vars, m, fill) && SameShape(before, after)
    && |q| == Offset(vars, before, |vars|) && Holds(q, vars, after, m)
  }

  lemma PackedNext(before: Fields, fields: Fields, q: seq<Component>, r: seq<Component>, vars: seq<Name>, m: nat,
                   fill: Filling, fld: seq<Component>)
    requires AllKnown(vars, before) && m < |vars| && Packed(before, fields, q, vars, m, fill) && Fills(fill)
    requires fld == fill(vars[m], fields[vars[m]]) && Offset(vars, before, m) + |fld| <= |q|
    requires r == q[..Offset(vars, before, m)] + fld + q[Offset(vars, before, m) + |fld|..]
    ensures Packed(before, fields[vars[m] := fld], r, vars, m + 1, fill)
  {
    var after := fields[vars[m] := fld];
    FilledNext(before, fields, vars, m, fill);
    FilledShape(before, after, vars, m + 1, fill);
    assert Holds(q, vars, after, m) by {
      HoldsAfterFill(q, vars, before, fields, m, fill);
    }
    HoldsReplaced(q, r, vars, before, after, m);
  }

  lemma HoldsReplaced(q: seq<Component>, r: seq<Component>, vars: seq<Name>, before: Fields, after: Fields, m: nat)
    requires AllKnown(vars, before) && SameShape(before, after) && m < |vars| && Holds(q, vars, after, m)
    requires var at, fld := Offset(vars, before, m), after[vars[m]];
      at + |fld| <= |q| && r == q[..at] + fld + q[at + |fld|..]
    ensures |r| == |q| && Holds(r, vars, after, m + 1)
  {
    SameOffsets(vars, before, after, m);
    SameOffsets(vars, before, after, m + 1);
    HoldsNext(q, r, vars, after, m);
  }

  lemma WholeSlice(s: seq<Component>)
    ensures s[0..0 + |s|] == s
  {
  }

  lemma NothingPacked(fields: Fields, scratch: seq<Component>, vars: seq<Name>, fill: Filling)
    requires AllKnown(vars, fields) && |scratch| == Offset(vars, fields, |vars|)
    ensures Packed(fields, fields, scratch, vars, 0, fill)
  {
  }

  /** Variables one after the other, filled, into a scratch buffer. */
  method Pack(vars: seq<Name>, fields: Fields, scratch: seq<Component>, fill: Filling)
    returns (q: seq<Component>, after: Fields)
    requires AllKnown(vars, fields) && |scratch| == Offset(vars, fields, |vars|) && Fills(fill)
    ensures Packed(fields, after, q, vars, |vars|, fill)
  {
    q, after := scratch, fields;
    NothingPacked(fields, scratch, vars, fill);
    var icomp := 0;
    for v := 0 to |vars|
      invariant Packed(fields, after, q, vars, v, fill) && icomp == Offset(vars, fields, v)
    {
      q, after, icomp := PackOne(fields, after, q, vars, v, fill, icomp);
    }
  }

  method PackOne(ghost before: Fields, fields: Fields, q: seq<Component>, vars: seq<Name>, v: nat, fill: Filling,
                 icomp: nat) returns (r: seq<Component>, after: Fields, next: nat)
    requires AllKnown(vars, before) && v < |vars| && Packed(before, fields, q, vars, v, fill) && Fills(fill)
    requires icomp == Offset(vars, before, v)
    ensures Packed(before, after, r, vars, v + 1, fill) && next == Offset(vars, before, v + 1)
  {
    var fld := fill(vars[v], fields[vars[v]]);
    OffsetsRise(vars, before, v, |vars|);
    assert FillsOne(fill, vars[v], fields[vars[v]]);
    r := Copy(q, fld, 0, icomp, |fld|);
    WholeSlice(fld);
    PackedNext(before, fields, q, r, vars, v, fill, fld);
    after, next := fields[vars[v] := fld], icomp + |fld|;
  }

  /** A variable holds its part of the buffer, filled. */
  ghost predicate VarFrom(q: seq<Component>, vars: seq<Name>, fields: Fields, v: nat, fill: Filling)
    requires AllKnown(vars, fields) && v < |vars|
  {
    var at, n := Offset(vars, fields, v), |fields[vars[v]]|;
    at + n <= |q| && fields[vars[v]] == fill(vars[v], q[at..at + n])
  }

  /** After `m` variables: shapes are as before, the latest occurrence of every name
      holds its part of the buffer, filled, and no other field has changed. */
  ghost predicate Unpacked(before: Fields, after: Fields, q: seq<Component>, vars: seq<Name>, m: nat, fill: Filling)
    requires AllKnown(vars, before) && m <= |vars|
  {
    && SameShape(before, after)
    && (forall v :: 0 <= v < m && LastOf(vars, v, m) ==> VarFrom(q, vars, after, v, fill))
    && forall name :: name in before && !Listed(vars, name, m) ==> after[name] == before[name]
  }

  /** Component `fld` is the part of the buffer for variable `m`, filled. */
  ghost predicate IsPart(before: Fields, q: seq<Component>, vars: seq<Name>, m: nat, fld: seq<Component>, fill: Filling)
    requires AllKnown(vars, before) && m < |vars|
  {
    var at, n := Offset(vars, before, m), |before[vars[m]]|;
    |fld| == n && at + n <= |q| && fld == fill(vars[m], q[at..at + n])
  }

  lemma UnpackedParts(before: Fields, fields: Fields, q: seq<Component>, vars: seq<Name>, m: nat, fld: seq<Component>,
                      v: nat, fill: Filling)
    requires AllKnown(vars, before) && v <= m < |vars| && Unpacked(before, fields, q, vars, m, fill)
    requires IsPart(before, q, vars, m, fld, fill) && LastOf(vars, v, m + 1)
    ensures AllKnown(vars, fields[vars[m] := fld])
    ensures VarFrom(q, vars, fields[vars[m] := fld], v, fill)
  {
    var after := fields[vars[m] := fld];
    SameOffsets(vars, before, fields, v);
    SameOffsets(vars, before, after, v);
    if v < m {
      assert vars[m] != vars[v] && LastOf(vars, v, m);
      assert after[vars[v]] == fields[vars[v]] && VarFrom(q, vars, fields, v, fill);
    }
  }

  lemma UnpackedNext(before: Fields, fields: Fields, q: seq<Component>, vars: seq<Name>, m: nat, fld: seq<Component>,
                     fill: Filling)
    requires AllKnown(vars, before) && m < |vars| && Unpacked(before, fields, q, vars, m, fill)
    requires IsPart(before, q, vars, m, fld, fill)
    ensures Unpacked(before, fields[vars[m] := fld], q, vars, m + 1, fill)
  {
    var after := fields[vars[m] := fld];
    forall v | 0 <= v < m + 1 && LastOf(vars, v, m + 1)
      ensures VarFrom(q, vars, after, v, fill)
    {
      UnpackedParts(before, fields, q, vars, m, fld, v, fill);
    }
    forall name | name in before && !Listed(vars, name, m + 1)
      ensures after[name] == before[name]
    {
      ListedNext(vars, name, m);
    }
  }

  lemma WholeCopy(dst: seq<Component>, part: seq<Component>, r: seq<Component>)
    requires |part| == |dst| && r == dst[..0] + part + dst[0 + |part|..]
    ensures r == part
  {
  }

  /** The buffer back into the variables, one after the other, each filled again. */
  method Unpack(vars: seq<Name>, fields: Fields, q: seq<Component>, fill: Filling) returns (after: Fields)
    requires AllKnown(vars, fields) && |q| == Offset(vars, fields, |vars|) && Fills(fill)
    ensures Unpacked(fields, after, q, vars, |vars|, fill)
  {
    after := fields;
    var icomp := 0;
    for v := 0 to |vars|
      invariant icomp == Offset(vars, fields, v) && Unpacked(fields, after, q, vars, v, fill)
    {
      after, icomp := UnpackOne(fields, after, q, vars, v, fill, icomp);
    }
  }

  method UnpackOne(ghost before: Fields, fields: Fields, q: seq<Component>, vars: seq<Name>, v: nat, fill: Filling,
                   icomp: nat) returns (after: Fields, next: nat)
    requires AllKnown(vars, before) && v < |vars| && |q| == Offset(vars, before, |vars|) && Fills(fill)
    requires Unpacked(before, fields, q, vars, v, fill) && icomp == Offset(vars, before, v)
    ensures Unpacked(before, after, q, vars, v + 1, fill) && next == Offset(vars, before, v + 1)
  {
    var ncomp := |fields[vars[v]]|;
    OffsetsRise(vars, before, v, |vars|);
    var fld := Copy(fields[vars[v]], q, icomp, 0, ncomp);
    WholeCopy(fields[vars[v]], q[icomp..icomp + ncomp], fld);
    assert FillsOne(fill, vars[v], fld);
    UnpackedNext(before, fields, q, vars, v, fill(vars[v], fld), fill);
    after, next := fields[vars[v] := fill(vars[v], fld)], icomp + ncomp;
  }

  lemma {:induction false} LatestOccurrence(vars: seq<Name>, name: Name, m: nat) returns (v: nat)
    requires m <= |vars| && Listed(vars, name, m)
    ensures v < m && vars[v] == name && LastOf(vars, v, m)
    decreases m
  {
    if vars[m - 1] == name {
      v := m - 1;
    } else {
      v := LatestOccurrence(vars, name, m - 1);
    }
  }

  lemma NameRestored(packed: Fields, before: Fields, after: Fields, q: seq<Component>, vars: seq<Name>, v: nat,
                     fill: Filling)
    requires AllKnown(vars, packed) && SameShape(packed, before) && v < |vars| && LastOf(vars, v, |vars|)
    requires Holds(q, vars, packed, |vars|) && Unpacked(before, after, q, vars, |vars|, fill)
    ensures after[vars[v]] == fill(vars[v], packed[vars[v]])
  {
    SameOffsets(vars, packed, after, v);
    assert VarIn(q, vars, packed, v) && VarFrom(q, vars, after, v, fill);
  }

  /** Round trip: whatever happened to the fields in between, unpacking an unchanged
      buffer gives every listed variable the values that it had when it was packed,
      filled, and leaves all other fields alone; names may occur more than once. */
  lemma ExchangeRestores(packed: Fields, before: Fields, after: Fields, q: seq<Component>, vars: seq<Name>,
                         fill: Filling)
    requires AllKnown(vars, packed) && SameShape(packed, before)
    requires Holds(q, vars, packed, |vars|) && Unpacked(before, after, q, vars, |vars|, fill)
    ensures forall name :: name in before ==>
              after[name] == if name in vars then fill(name, packed[name]) else before[name]
  {
    forall name | name in before && name in vars
      ensures after[name] == fill(name, packed[name])
    {
      var v := LatestOccurrence(vars, name, |vars|);
      NameRestored(packed, before, after, q, vars, v, fill);
    }
    forall name | name in before && name !in vars
      ensures after[name] == before[name]
    {
      assert !Listed(vars, name, |vars|);
    }
  }

  // --------------------------------------------------------------- the interface

  class TiogaInterface {
    var fields: Fields
    var qcell: seq<Component>
    var qnode: seq<Component>
    var cellVars: seq<Name>
    var nodeVars: seq<Name>

    constructor (repo: Fields)
      ensures fields == repo && cellVars == nodeVars == [] && qcell == qnode == []
    {
      fields, cellVars, nodeVars, qcell, qnode := repo, [], [], [], [];
    }

    /** Fills and packs cell and node variables; `mid` are the fields between the two.
        Fails, before anything is stored, when a field is not known. `blank` is what a
        new scratch buffer holds. */
    method RegisterSolution(cells: seq<Name>, nodes: seq<Name>, blank: Component, fill: Filling)
      returns (ok: bool, ghost mid: Fields)
      requires Fills(fill)
      modifies this
      ensures ok <==> old(AllKnown(cells, fields) && AllKnown(nodes, fields))
      ensures !ok ==> unchanged(this)
      ensures ok ==> cellVars == cells && nodeVars == nodes
      ensures ok ==> FilledUpTo(old(fields), mid, cells, |cells|, fill)
      ensures ok ==> FilledUpTo(mid, fields, nodes, |nodes|, fill)
      ensures ok ==> |qcell| == Offset(cells, mid, |cells|) && Holds(qcell, cells, mid, |cells|)
      ensures ok ==> |qnode| == Offset(nodes, fields, |nodes|) && Holds(qnode, nodes, fields, |nodes|)
    {
      mid := fields;
      var okCells, ncell := CountComponents(cells, fields);
      var okNodes, nnode := CountComponents(nodes, fields);
      if !okCells || !okNodes {
        ok := false;
        return;
      }
      cellVars, nodeVars := cells, nodes;
      var filled;
      qcell, filled := Pack(cellVars, fields, seq(ncell, _ => blank), fill);
      SameOffsets(cells, fields, filled, |cells|);
      SameOffsets(nodes, fields, filled, |nodes|);
      mid, fields := filled, filled;
      qnode, filled := Pack(nodeVars, fields, seq(nnode, _ => blank), fill);
      SameOffsets(nodes, fields, filled, |nodes|);
      fields := filled;
      ok := true;
    }

    /** Unpacks both buffers, fills the variables again and releases the buffers. */
    method UpdateSolution(fill: Filling) returns (ghost mid: Fields)
      requires AllKnown(cellVars, fields) && AllKnown(nodeVars, fields) && Fills(fill)
      requires |qcell| == Offset(cellVars, fields, |cellVars|) && |qnode| == Offset(nodeVars, fields, |nodeVars|)
      modifies this`fields, this`qcell, this`qnode
      ensures qcell == qnode == []
      ensures Unpacked(old(fields), mid, old(qcell), cellVars, |cellVars|, fill)
      ensures AllKnown(nodeVars, mid) && Unpacked(mid, fields, old(qnode), nodeVars, |nodeVars|, fill)
    {
      ghost var before := fields;
      fields := Unpack(cellVars, fields, qcell, fill);
      mid := fields;
      SameOffsets(nodeVars, before, mid, |nodeVars|);
      fields := Unpack(nodeVars, fields, qnode, fill);
      qcell, qnode := [], [];
    }
  }

  /** What the two passes over cell and node variables leave when nothing was exchanged:
      fields that were filled stay as they were filled. */
  lemma FilledStay(start: Fields, half: Fields, packed: Fields, mid: Fields, after: Fields, qcell: seq<Component>,
                   qnode: seq<Component>, cells: seq<Name>, nodes: seq<Name>, fill: Filling)
    requires AllKnown(cells, start) && AllKnown(nodes, start) && Fills(fill)
    requires FilledUpTo(start, half, cells, |cells|, fill) && FilledUpTo(half, packed, nodes, |nodes|, fill)
    requires Holds(qcell, cells, half, |cells|) && Holds(qnode, nodes, packed, |nodes|)
    requires Unpacked(packed, mid, qcell, cells, |cells|, fill) && AllKnown(nodes, mid)
    requires Unpacked(mid, after, qnode, nodes, |nodes|, fill)
    ensures after.Keys == start.Keys
    ensures forall name :: name in start ==>
              after[name] == if name in cells || name in nodes then fill(name, start[name]) else start[name]
  {
    FilledShape(half, packed, nodes, |nodes|, fill);
    ExchangeRestores(half, packed, mid, qcell, cells, fill);
    ExchangeRestores(packed, mid, after, qnode, nodes, fill);
    forall name | name in start
      ensures after[name] == if name in cells || name in nodes then fill(name, start[name]) else start[name]
    {
      InList(cells, name);
      InList(nodes, name);
      assert FillsOne(fill, name, start[name]);
    }
  }

  lemma InList(vars: seq<Name>, name: Name)
    ensures Listed(vars, name, |vars|) <==> name in vars
  {
  }

  /** Registering and updating with nothing exchanged in between fills the listed fields
      and leaves all others as they were. */
  method Exchange(tioga: TiogaInterface, cells: seq<Name>, nodes: seq<Name>, blank: Component, fill: Filling)
    requires AllKnown(cells, tioga.fields) && AllKnown(nodes, tioga.fields) && Fills(fill)
    modifies tioga
    ensures tioga.fields.Keys == old(tioga.fields.Keys)
    ensures forall name :: name in old(tioga.fields) ==>
              tioga.fields[name] == if name in cells || name in nodes then fill(name, old(tioga.fields)[name])
                                    else old(tioga.fields)[name]
  {
    ghost var start := tioga.fields;
    var ok, half := tioga.RegisterSolution(cells, nodes, blank, fill);
    ghost var packed, qcell, qnode := tioga.fields, tioga.qcell, tioga.qnode;
    FilledShape(half, packed, nodes, |nodes|, fill);
    SameOffsets(cells, half, packed, |cells|);
    ghost var mid := tioga.UpdateSolution(fill);
    FilledStay(start, half, packed, mid, tioga.fields, qcell, qnode, cells, nodes, fill);
  }
}
