/** The field repository: fields, their names and their arrays on every level, kept in
    step across declarations, additional time states and regrids. */
module FieldRepo {
  import opened FieldNames

  datatype FieldLoc = CELL | NODE | XFACE | YFACE | ZFACE

  /** What the time states of a field share. `states` gives the field id per state. */
  datatype FieldInfo = FieldInfo(baseName: string, ncomp: nat, ngrow: nat, nstates: int, floc: FieldLoc,
                                 states: map<FieldState, nat>)

  /** One time state of a field; `info` is the position of the shared information. */
  datatype Field = Field(name: string, info: nat, id: nat, state: FieldState, fillpatchOnRegrid: bool)

  /** Identifies a set of boxes with its distribution over ranks. */
  datatype BoxArray = BoxArray(tag: nat)

  /** Where the values of an array come from. */
  datatype Content = Zero | FromCoarse | FromFill

  datatype Fab = Fab(ba: BoxArray, floc: FieldLoc, ncomp: nat, ngrow: nat, content: Content)

  datatype LevelData = LevelData(ba: BoxArray, fabs: seq<Fab>)

  datatype Slot = Cleared | Live(data: LevelData)

  /** The mesh that the repository serves: boxes per level, up to the finest one. */
  datatype Mesh = Mesh(grids: seq<BoxArray>)

  /** The mesh with a level put on new boxes, or with one more level. */
  function WithLevel(mesh: Mesh, lev: nat, ba: BoxArray): Mesh
    requires lev <= |mesh.grids|
  {
    Mesh(if lev < |mesh.grids| then mesh.grids[lev := ba] else mesh.grids + [ba])
  }

  datatype Outcome = Declared(id: nat) | Inconsistent | TooManyStates | ReservedName | NoFieldToReturn

  // ------------------------------------------------------------ the invariant

  /** Ids are positions, and every field is listed in its own information. */
  ghost predicate FieldListed(f: Field, k: nat, infos: seq<FieldInfo>) {
    && f.id == k && f.info < |infos|
    && f.name == FieldNameWithState(infos[f.info].baseName, f.state)
    && f.state in infos[f.info].states && infos[f.info].states[f.state] == k
  }

  ghost predicate FieldsListed(fields: seq<Field>, infos: seq<FieldInfo>) {
    forall k {:trigger fields[k]} :: 0 <= k < |fields| ==> FieldListed(fields[k], k, infos)
  }

  ghost predicate InfoListed(info: FieldInfo, p: nat, fields: seq<Field>) {
    forall s :: s in info.states ==>
      info.states[s] < |fields| && fields[info.states[s]].info == p && fields[info.states[s]].state == s
  }

  ghost predicate InfosListed(infos: seq<FieldInfo>, fields: seq<Field>) {
    forall p {:trigger infos[p]} :: 0 <= p < |infos| ==>
      IsValidFieldName(infos[p].baseName) && InfoListed(infos[p], p, fields)
  }

  ghost predicate BasesDistinct(infos: seq<FieldInfo>) {
    forall p, q :: 0 <= p < q < |infos| ==> infos[p].baseName != infos[q].baseName
  }

  /** The first `n` pieces of information have a newest state. */
  ghost predicate HaveNew(infos: seq<FieldInfo>, n: nat) {
    forall p :: 0 <= p < n && p < |infos| ==> NEW in infos[p].states
  }

  /** Names and fields correspond one to one. */
  ghost predicate NamesIndex(names: map<string, nat>, fields: seq<Field>) {
    && (forall k :: 0 <= k < |fields| ==> fields[k].name in names && names[fields[k].name] == k)
    && (forall n :: n in names ==> names[n] < |fields| && fields[names[n]].name == n)
  }

  predicate Fits(fab: Fab, ba: BoxArray, info: FieldInfo) {
    fab.ba == ba && fab.floc == info.floc && fab.ncomp == info.ncomp && fab.ngrow == info.ngrow
  }

  /** A level has exactly one array per field, at its id and of its shape. */
  ghost predicate LevelFits(data: LevelData, fields: seq<Field>, infos: seq<FieldInfo>)
    requires FieldsListed(fields, infos)
  {
    |data.fabs| == |fields| && forall k :: 0 <= k < |fields| ==> Fits(data.fabs[k], data.ba, infos[fields[k].info])
  }

  ghost predicate LevelsFit(levels: seq<Slot>, fields: seq<Field>, infos: seq<FieldInfo>)
    requires FieldsListed(fields, infos)
  {
    forall lev :: 0 <= lev < |levels| && levels[lev].Live? ==> LevelFits(levels[lev].data, fields, infos)
  }

  ghost predicate Consistent(fields: seq<Field>, infos: seq<FieldInfo>, names: map<string, nat>, levels: seq<Slot>) {
    && FieldsListed(fields, infos) && InfosListed(infos, fields) && BasesDistinct(infos) && NamesIndex(names, fields)
    && LevelsFit(levels, fields, infos)
  }

  // --------------------------------------------------------- adding one state

  function WithState(info: FieldInfo, s: FieldState, id: nat): FieldInfo { info.(states := info.states[s := id]) }

  function NewField(info: FieldInfo, p: nat, s: FieldState, id: nat): Field {
    Field(FieldNameWithState(info.baseName, s), p, id, s, false)
  }

  function NewFab(ba: BoxArray, info: FieldInfo): Fab { Fab(ba, info.floc, info.ncomp, info.ngrow, Zero) }

  function Grown(slot: Slot, info: FieldInfo): Slot {
    if slot.Live? then Live(slot.data.(fabs := slot.data.fabs + [NewFab(slot.data.ba, info)])) else slot
  }

  ghost predicate AllGrown(before: seq<Slot>, after: seq<Slot>, info: FieldInfo) {
    |after| == |before| && forall lev :: 0 <= lev < |before| ==> after[lev] == Grown(before[lev], info)
  }

  /** A state that a field does not have yet has no stored name either. */
  lemma NameIsFree(fields: seq<Field>, infos: seq<FieldInfo>, names: map<string, nat>, p: nat, s: FieldState)
    requires FieldsListed(fields, infos) && InfosListed(infos, fields) && BasesDistinct(infos)
    requires NamesIndex(names, fields)
    requires p < |infos| && s !in infos[p].states
    ensures FieldNameWithState(infos[p].baseName, s) !in names
  {
    var n := FieldNameWithState(infos[p].baseName, s);
    if n in names {
      var f := fields[names[n]];
      NamesAreInjective(infos[f.info].baseName, f.state, infos[p].baseName, s);
    }
  }

  lemma FieldStaysListed(f: Field, k: nat, infos: seq<FieldInfo>, p: nat, s: FieldState, id: nat)
    requires FieldListed(f, k, infos) && p < |infos| && s !in infos[p].states
    ensures FieldListed(f, k, infos[p := WithState(infos[p], s, id)])
  {
    var info, info' := infos[f.info], infos[p := WithState(infos[p], s, id)][f.info];
    assert info'.baseName == info.baseName && f.state in info'.states && info'.states[f.state] == info.states[f.state];
  }

  lemma FieldsGrow(fields: seq<Field>, infos: seq<FieldInfo>, p: nat, s: FieldState)
    requires FieldsListed(fields, infos) && p < |infos| && s !in infos[p].states
    ensures FieldsListed(fields + [NewField(infos[p], p, s, |fields|)], infos[p := WithState(infos[p], s, |fields|)])
  {
    var id := |fields|;
    var fields', infos' := fields + [NewField(infos[p], p, s, id)], infos[p := WithState(infos[p], s, id)];
    forall k | 0 <= k < |fields'|
      ensures FieldListed(fields'[k], k, infos')
    {
      if k < id {
        FieldStaysListed(fields[k], k, infos, p, s, id);
      }
    }
  }

  lemma InfoStaysListed(info: FieldInfo, p: nat, q: nat, s: FieldState, fields: seq<Field>, f: Field)
    requires InfoListed(info, q, fields) && (p == q ==> f.info == p && f.state == s)
    ensures InfoListed(if p == q then WithState(info, s, |fields|) else info, q, fields + [f])
  {
  }

  lemma InfosGrow(fields: seq<Field>, infos: seq<FieldInfo>, p: nat, s: FieldState)
    requires InfosListed(infos, fields) && p < |infos|
    ensures InfosListed(infos[p := WithState(infos[p], s, |fields|)], fields + [NewField(infos[p], p, s, |fields|)])
  {
    var infos' := infos[p := WithState(infos[p], s, |fields|)];
    forall q | 0 <= q < |infos'|
      ensures IsValidFieldName(infos'[q].baseName)
      ensures InfoListed(infos'[q], q, fields + [NewField(infos[p], p, s, |fields|)])
    {
      assert infos'[q].baseName == infos[q].baseName;
      InfoStaysListed(infos[q], p, q, s, fields, NewField(infos[p], p, s, |fields|));
    }
  }

  lemma BasesStay(infos: seq<FieldInfo>, p: nat, s: FieldState, id: nat)
    requires BasesDistinct(infos) && p < |infos|
    ensures BasesDistinct(infos[p := WithState(infos[p], s, id)])
  {
    var infos' := infos[p := WithState(infos[p], s, id)];
    assert forall q :: 0 <= q < |infos| ==> infos'[q].baseName == infos[q].baseName;
  }

  lemma NamesGrow(fields: seq<Field>, names: map<string, nat>, f: Field)
    requires NamesIndex(names, fields) && f.name !in names
    ensures NamesIndex(names[f.name := |fields|], fields + [f])
  {
  }

  lemma LevelsGrow(fields: seq<Field>, infos: seq<FieldInfo>, before: seq<Slot>, after: seq<Slot>, p: nat,
                   s: FieldState)
    requires FieldsListed(fields, infos) && LevelsFit(before, fields, infos)
    requires p < |infos| && AllGrown(before, after, infos[p])
    requires FieldsListed(fields + [NewField(infos[p], p, s, |fields|)], infos[p := WithState(infos[p], s, |fields|)])
    ensures LevelsFit(after, fields + [NewField(infos[p], p, s, |fields|)],
                      infos[p := WithState(infos[p], s, |fields|)])
  {
    forall lev | 0 <= lev < |after| && after[lev].Live?
      ensures LevelFits(after[lev].data, fields + [NewField(infos[p], p, s, |fields|)],
                        infos[p := WithState(infos[p], s, |fields|)])
    {
      assert LevelFits(before[lev].data, fields, infos);
    }
  }

  /** Adding a state keeps everything consistent. */
  lemma StateKeepsConsistent(fields: seq<Field>, infos: seq<FieldInfo>, names: map<string, nat>, before: seq<Slot>,
                             after: seq<Slot>, p: nat, s: FieldState)
    requires Consistent(fields, infos, names, before) && p < |infos| && s !in infos[p].states
    requires AllGrown(before, after, infos[p])
    ensures FieldNameWithState(infos[p].baseName, s) !in names
    ensures Consistent(fields + [NewField(infos[p], p, s, |fields|)], infos[p := WithState(infos[p], s, |fields|)],
                       names[FieldNameWithState(infos[p].baseName, s) := |fields|], after)
  {
    NameIsFree(fields, infos, names, p, s);
    FieldsGrow(fields, infos, p, s);
    InfosGrow(fields, infos, p, s);
    BasesStay(infos, p, s, |fields|);
    NamesGrow(fields, names, NewField(infos[p], p, s, |fields|));
    LevelsGrow(fields, infos, before, after, p, s);
  }

  // ------------------------------------------------------------- the repository

  /** Arrays for all fields on a new set of boxes. */
  function FreshFabs(fields: seq<Field>, infos: seq<FieldInfo>, ba: BoxArray): (r: seq<Fab>)
    requires forall k :: 0 <= k < |fields| ==> fields[k].info < |infos|
    ensures |r| == |fields| && forall k :: 0 <= k < |fields| ==> r[k] == NewFab(ba, infos[fields[k].info])
  {
    seq(|fields|, k requires 0 <= k < |fields| => NewFab(ba, infos[fields[k].info]))
  }

  /** Array `k` after a level was set up: filled if its field asks for it, zero if not. */
  function Expected(f: Field, ba: BoxArray, infos: seq<FieldInfo>, source: Content): Fab
    requires f.info < |infos|
  {
    NewFab(ba, infos[f.info]).(content := if f.fillpatchOnRegrid then source else Zero)
  }

  function StateIndex(s: FieldState): nat {
    match s
    case NP1 => 0
    case N => 1
    case NM1 => 2
    case NPH => 3
    case NMH => 4
  }

  function StateOf(i: nat): (s: FieldState)
    requires i < 5
    ensures StateIndex(s) == i
  {
    match i
    case 0 => NP1
    case 1 => N
    case 2 => NM1
    case 3 => NPH
    case _ => NMH
  }

  /** Registered names cover all base names, so a free name is a new base name. */
  lemma FreeNameIsNewBase(fields: seq<Field>, infos: seq<FieldInfo>, names: map<string, nat>, name: string, p: nat)
    requires FieldsListed(fields, infos) && InfosListed(infos, fields) && NamesIndex(names, fields)
    requires HaveNew(infos, |infos|)
    requires name !in names && p < |infos|
    ensures infos[p].baseName != name
  {
    assert InfoListed(infos[p], p, fields);
    var k := infos[p].states[NEW];
    assert FieldListed(fields[k], k, infos);
    assert infos[p].baseName + "" == infos[p].baseName;
  }

  lemma FieldsStayListed(fields: seq<Field>, infos: seq<FieldInfo>, info: FieldInfo)
    requires FieldsListed(fields, infos)
    ensures FieldsListed(fields, infos + [info])
  {
    forall k | 0 <= k < |fields|
      ensures FieldListed(fields[k], k, infos + [info])
    {
      assert FieldListed(fields[k], k, infos);
    }
  }

  lemma InfosStayListed(infos: seq<FieldInfo>, fields: seq<Field>, info: FieldInfo)
    requires InfosListed(infos, fields) && IsValidFieldName(info.baseName) && info.states == map[]
    ensures InfosListed(infos + [info], fields)
  {
    var infos' := infos + [info];
    forall p | 0 <= p < |infos'|
      ensures IsValidFieldName(infos'[p].baseName) && InfoListed(infos'[p], p, fields)
    {
      if p < |infos| {
        assert infos'[p] == infos[p];
      } else {
        assert infos'[p] == info && InfoListed(info, p, fields);
      }
    }
  }

  lemma LevelsStayFit(levels: seq<Slot>, fields: seq<Field>, infos: seq<FieldInfo>, info: FieldInfo)
    requires FieldsListed(fields, infos) && LevelsFit(levels, fields, infos) && FieldsListed(fields, infos + [info])
    ensures LevelsFit(levels, fields, infos + [info])
  {
    forall lev | 0 <= lev < |levels| && levels[lev].Live?
      ensures LevelFits(levels[lev].data, fields, infos + [info])
    {
      assert LevelFits(levels[lev].data, fields, infos);
    }
  }

  lemma NewInfoKeepsConsistent(fields: seq<Field>, infos: seq<FieldInfo>, names: map<string, nat>, levels: seq<Slot>,
                               info: FieldInfo)
    requires Consistent(fields, infos, names, levels) && HaveNew(infos, |infos|)
    requires info.baseName !in names && IsValidFieldName(info.baseName) && info.states == map[]
    ensures Consistent(fields, infos + [info], names, levels)
  {
    FieldsStayListed(fields, infos, info);
    InfosStayListed(infos, fields, info);
    LevelsStayFit(levels, fields, infos, info);
    forall p | 0 <= p < |infos|
      ensures infos[p].baseName != info.baseName
    {
      FreeNameIsNewBase(fields, infos, names, info.baseName, p);
    }
  }

  /** Levels keep their boxes and the arrays that they had. */
  ghost predicate Extended(before: seq<Slot>, after: seq<Slot>) {
    && |after| == |before|
    && forall lev :: 0 <= lev < |before| ==>
         (after[lev].Live? <==> before[lev].Live?)
         && (after[lev].Live? ==>
               after[lev].data.ba == before[lev].data.ba && before[lev].data.fabs <= after[lev].data.fabs)
  }

  lemma GrowsExtend(first: seq<Slot>, before: seq<Slot>, after: seq<Slot>, info: FieldInfo)
    requires Extended(first, before) && AllGrown(before, after, info)
    ensures Extended(first, after)
  {
  }

  /** The new fields of a declaration: one per state, in order, at the end. */
  ghost predicate Appended(before: seq<Field>, after: seq<Field>, name: string, p: nat, n: nat) {
    && |after| == |before| + n && before <= after && n <= 5
    && forall i :: 0 <= i < n ==>
         after[|before| + i] == Field(FieldNameWithState(name, StateOf(i)), p, |before| + i, StateOf(i), false)
  }

  /** The information that a declaration leaves: states `0` to `n - 1`. */
  ghost predicate Describes(info: FieldInfo, finfo: FieldInfo, n: nat) {
    info == finfo.(states := info.states) && forall s :: s in info.states <==> StateIndex(s) < n
  }

  lemma DescribesNext(info: FieldInfo, finfo: FieldInfo, n: nat, id: nat)
    requires Describes(info, finfo, n) && n < 5
    ensures StateOf(n) !in info.states && Describes(WithState(info, StateOf(n), id), finfo, n + 1)
  {
    forall s
      ensures s in WithState(info, StateOf(n), id).states <==> StateIndex(s) < n + 1
    {
      assert StateIndex(s) == n ==> s == StateOf(n);
    }
  }

  /** How far a declaration has come after `n` states. */
  ghost predicate Progress(fields0: seq<Field>, fields: seq<Field>, infos0: seq<FieldInfo>, infos: seq<FieldInfo>,
                           levels0: seq<Slot>, levels: seq<Slot>, finfo: FieldInfo, n: nat) {
    && |infos| == |infos0| + 1 && infos[..|infos0|] == infos0 && Describes(infos[|infos0|], finfo, n)
    && Appended(fields0, fields, finfo.baseName, |infos0|, n) && Extended(levels0, levels)
  }

  lemma NextProgress(fields0: seq<Field>, fields: seq<Field>, fields': seq<Field>, infos0: seq<FieldInfo>,
                     infos: seq<FieldInfo>, infos': seq<FieldInfo>, levels0: seq<Slot>, levels: seq<Slot>,
                     levels': seq<Slot>,
                     finfo: FieldInfo, n: nat)
    requires Progress(fields0, fields, infos0, infos, levels0, levels, finfo, n) && n < 5
    requires fields' == fields + [NewField(infos[|infos0|], |infos0|, StateOf(n), |fields|)]
    requires infos' == infos[|infos0| := WithState(infos[|infos0|], StateOf(n), |fields|)]
    requires AllGrown(levels, levels', infos[|infos0|])
    ensures Progress(fields0, fields', infos0, infos', levels0, levels', finfo, n + 1)
  {
    GrowsExtend(levels0, levels, levels', infos[|infos0|]);
    DescribesNext(infos[|infos0|], finfo, n, |fields|);
  }

  /** Information for a name that users may declare and nobody has declared. */
  ghost predicate IsNew(finfo: FieldInfo, names: map<string, nat>) {
    finfo.baseName !in names && IsValidFieldName(finfo.baseName) && finfo.states == map[] && finfo.nstates <= 3
  }

  lemma NewStateFound(fields0: seq<Field>, fields: seq<Field>, infos0: seq<FieldInfo>, infos: seq<FieldInfo>,
                      levels0: seq<Slot>, levels: seq<Slot>, finfo: FieldInfo, n: nat, names: map<string, nat>)
    requires Progress(fields0, fields, infos0, infos, levels0, levels, finfo, n) && n >= 1
    requires HaveNew(infos0, |infos0|) && NamesIndex(names, fields)
    ensures HaveNew(infos, |infos|) && finfo.baseName in names && names[finfo.baseName] == |fields0|
  {
    forall p | 0 <= p < |infos|
      ensures NEW in infos[p].states
    {
      assert p < |infos0| ==> infos[p] == infos0[p];
    }
    var i := 0;
    assert fields[|fields0| + i].name == FieldNameWithState(finfo.baseName, StateOf(i));
    assert finfo.baseName + "" == finfo.baseName && StateOf(0) == NEW;
  }

  lemma InfoInRange(fields: seq<Field>, infos: seq<FieldInfo>)
    requires FieldsListed(fields, infos)
    ensures forall k :: 0 <= k < |fields| ==> fields[k].info < |infos|
  {
  }

  lemma LevelReplaced(fields: seq<Field>, infos: seq<FieldInfo>, levels: seq<Slot>, lev: nat, data: LevelData)
    requires FieldsListed(fields, infos) && LevelsFit(levels, fields, infos) && lev < |levels|
    requires LevelFits(data, fields, infos)
    ensures LevelsFit(levels[lev := Live(data)], fields, infos)
  {
  }

  /** Two lists of fields differ in their flags at most. */
  ghost predicate SameButFlags(a: seq<Field>, b: seq<Field>) {
    |a| == |b| && forall k {:trigger b[k]} :: 0 <= k < |a| ==>
                    b[k].name == a[k].name && b[k].info == a[k].info && b[k].id == a[k].id && b[k].state == a[k].state
  }

  lemma OneFlag(fields: seq<Field>, k: nat, flag: bool)
    requires k < |fields|
    ensures SameButFlags(fields, fields[k := fields[k].(fillpatchOnRegrid := flag)])
  {
  }

  lemma FlagsLeaveFields(a: seq<Field>, b: seq<Field>, infos: seq<FieldInfo>)
    requires SameButFlags(a, b) && FieldsListed(a, infos)
    ensures FieldsListed(b, infos)
  {
    forall k | 0 <= k < |b|
      ensures FieldListed(b[k], k, infos)
    {
      assert FieldListed(a[k], k, infos);
    }
  }

  lemma FlagsLeaveInfos(a: seq<Field>, b: seq<Field>, infos: seq<FieldInfo>)
    requires SameButFlags(a, b) && InfosListed(infos, a)
    ensures InfosListed(infos, b)
  {
    forall p | 0 <= p < |infos|
      ensures IsValidFieldName(infos[p].baseName) && InfoListed(infos[p], p, b)
    {
      assert InfoListed(infos[p], p, a);
    }
  }

  lemma FlagsLeaveNames(a: seq<Field>, b: seq<Field>, names: map<string, nat>)
    requires SameButFlags(a, b) && NamesIndex(names, a)
    ensures NamesIndex(names, b)
  {
    forall k | 0 <= k < |b|
      ensures b[k].name in names && names[b[k].name] == k
    {
      assert a[k].name in names && names[a[k].name] == k;
    }
  }

  lemma FlagsLeaveLevels(a: seq<Field>, b: seq<Field>, infos: seq<FieldInfo>, levels: seq<Slot>)
    requires SameButFlags(a, b) && FieldsListed(a, infos) && FieldsListed(b, infos) && LevelsFit(levels, a, infos)
    ensures LevelsFit(levels, b, infos)
  {
    forall lev | 0 <= lev < |levels| && levels[lev].Live?
      ensures LevelFits(levels[lev].data, b, infos)
    {
      assert LevelFits(levels[lev].data, a, infos);
    }
  }

  lemma FlagKeepsConsistent(a: seq<Field>, b: seq<Field>, infos: seq<FieldInfo>, names: map<string, nat>,
                            levels: seq<Slot>)
    requires SameButFlags(a, b) && Consistent(a, infos, names, levels)
    ensures Consistent(b, infos, names, levels)
  {
    FlagsLeaveFields(a, b, infos);
    FlagsLeaveInfos(a, b, infos);
    FlagsLeaveNames(a, b, names);
    FlagsLeaveLevels(a, b, infos, levels);
  }

  ghost predicate HoldsExpected(fabs: seq<Fab>, fields: seq<Field>, infos: seq<FieldInfo>, ba: BoxArray,
                                source: Content)
    requires FieldsListed(fields, infos)
  {
    |fabs| == |fields| && forall k :: 0 <= k < |fields| ==> fabs[k] == Expected(fields[k], ba, infos, source)
  }

  lemma LevelKeepsConsistent(fields: seq<Field>, infos: seq<FieldInfo>, names: map<string, nat>, levels: seq<Slot>,
                             lev: nat, data: LevelData)
    requires Consistent(fields, infos, names, levels) && lev < |levels| && LevelFits(data, fields, infos)
    ensures Consistent(fields, infos, names, levels[lev := Live(data)])
  {
    LevelReplaced(fields, infos, levels, lev, data);
  }

  lemma StateKeepsNew(infos: seq<FieldInfo>, p: nat, s: FieldState, id: nat)
    requires HaveNew(infos, |infos|) && p < |infos|
    ensures HaveNew(infos[p := WithState(infos[p], s, id)], |infos|)
  {
  }

  lemma StateFound(fields: seq<Field>, infos: seq<FieldInfo>, k: nat, s: FieldState)
    requires FieldsListed(fields, infos) && InfosListed(infos, fields) && k < |fields|
    ensures fields[k].info < |infos|
    ensures var states := infos[fields[k].info].states;
      s in states ==> states[s] < |fields| && fields[states[s]].info == fields[k].info && fields[states[s]].state == s
  {
    assert FieldListed(fields[k], k, infos);
    assert InfoListed(infos[fields[k].info], fields[k].info, fields);
  }

  /** Some field with this base name has this state. */
  ghost predicate HasState(fields: seq<Field>, infos: seq<FieldInfo>, name: string, s: FieldState) {
    exists k :: 0 <= k < |fields| && IsState(fields, infos, name, s, k)
  }

  ghost predicate IsState(fields: seq<Field>, infos: seq<FieldInfo>, name: string, s: FieldState, k: nat)
    requires k < |fields|
  {
    fields[k].info < |infos| && fields[k].state == s && infos[fields[k].info].baseName == name
  }

  /** With one state a field has the newest one alone, with two also the old one, with
      three also the one before that, and never an intermediate one. */
  ghost predicate HasStates(fields: seq<Field>, infos: seq<FieldInfo>, name: string, n: int) {
    forall s :: HasState(fields, infos, name, s) <==> s == NP1 || (s == N && n >= 2) || (s == NM1 && n >= 3)
  }

  lemma StatesAreListed(fields: seq<Field>, infos: seq<FieldInfo>, p: nat, s: FieldState)
    requires FieldsListed(fields, infos) && InfosListed(infos, fields) && BasesDistinct(infos) && p < |infos|
    ensures HasState(fields, infos, infos[p].baseName, s) <==> s in infos[p].states
  {
    if s in infos[p].states {
      assert InfoListed(infos[p], p, fields);
      assert IsState(fields, infos, infos[p].baseName, s, infos[p].states[s]);
    }
    forall k | 0 <= k < |fields| && IsState(fields, infos, infos[p].baseName, s, k)
      ensures s in infos[p].states
    {
      assert FieldListed(fields[k], k, infos);
    }
  }

  lemma DeclaredStates(fields: seq<Field>, infos: seq<FieldInfo>, p: nat, finfo: FieldInfo, n: nat)
    requires FieldsListed(fields, infos) && InfosListed(infos, fields) && BasesDistinct(infos) && p < |infos|
    requires Describes(infos[p], finfo, n) && 1 <= n <= 3
    ensures HasStates(fields, infos, finfo.baseName, n)
  {
    forall s
      ensures HasState(fields, infos, finfo.baseName, s) <==> s == NP1 || (s == N && n >= 2) || (s == NM1 && n >= 3)
    {
      StatesAreListed(fields, infos, p, s);
    }
  }

  /** The arrays of marked fields come from the source, all others are zero. */
  ghost predicate FilledAsMarked(fabs: seq<Fab>, fields: seq<Field>, source: Content) {
    && |fabs| == |fields|
    && (forall k :: 0 <= k < |fabs| && fields[k].fillpatchOnRegrid ==> fabs[k].content == source)
    && (forall k :: 0 <= k < |fabs| && !fields[k].fillpatchOnRegrid ==> fabs[k].content == Zero)
  }

  /** A look-up of a registered name. */
  function Known(fields: seq<Field>, infos: seq<FieldInfo>, id: nat, ncomp: nat, nstates: int, floc: FieldLoc): Outcome
    requires id < |fields| && fields[id].info < |infos|
  {
    var info := infos[fields[id].info];
    if ncomp != info.ncomp || info.nstates != nstates || floc != info.floc then Inconsistent else Declared(id)
  }

  /** A name that is entered under an id that is not its field's breaks the index. */
  lemma StrayEntryBreaks(fields: seq<Field>, names: map<string, nat>, name: string)
    requires NamesIndex(names, fields) && name !in names
    ensures !NamesIndex(names[name := 0], fields)
  {
    var stray := names[name := 0];
    if fields != [] {
      assert fields[0].name in names;
      assert name in stray && stray[name] == 0;
    } else {
      assert name in stray;
    }
  }

  class FieldRepo {
    var fieldVec: seq<Field>
    var infos: seq<FieldInfo>
    var fidMap: map<string, nat>
    var levelData: seq<Slot>
    var isInitialized: bool

    /** What holds between any two calls. */
    ghost predicate Valid()
      reads this
    {
      && Consistent(fieldVec, infos, fidMap, levelData) && HaveNew(infos, |infos|)
      && (isInitialized || forall lev :: 0 <= lev < |levelData| ==> levelData[lev].Cleared?)
    }

    /** The mesh has exactly the live levels, on the same boxes. */
    ghost predicate InStep(mesh: Mesh)
      reads this
    {
      && |mesh.grids| <= |levelData|
      && forall lev :: 0 <= lev < |levelData| ==>
           (levelData[lev].Live? <==> isInitialized && lev < |mesh.grids|)
           && (levelData[lev].Live? ==> levelData[lev].data.ba == mesh.grids[lev])
    }

    /** The same, but for the levels from `lo` to before `hi`, which are cleared. */
    ghost predicate InStepBut(mesh: Mesh, lo: nat, hi: nat)
      reads this
    {
      && |mesh.grids| <= |levelData|
      && forall lev :: 0 <= lev < |levelData| ==>
           (levelData[lev].Live? <==> isInitialized && lev < |mesh.grids| && !(lo <= lev < hi))
           && (levelData[lev].Live? ==> levelData[lev].data.ba == mesh.grids[lev])
    }

    /** Once all levels from `lo` on are cleared, the repository is in step with the mesh
        that ends there. */
    lemma ClearedFrom(mesh: Mesh, lo: nat)
      requires lo <= |mesh.grids| <= |levelData|
      ensures InStepBut(mesh, lo, lo) <==> InStep(mesh)
      ensures InStepBut(mesh, lo, |mesh.grids|) <==> InStep(Mesh(mesh.grids[..lo]))
    {
      var rest := Mesh(mesh.grids[..lo]);
      if InStepBut(mesh, lo, |mesh.grids|) {
        assert InStep(rest);
      }
      if InStep(rest) {
        assert forall lev :: 0 <= lev < lo ==> rest.grids[lev] == mesh.grids[lev];
      }
    }

    /** With its level set up, the repository is in step with the mesh that has that level. */
    twostate predicate FollowsLevel(lev: nat, ba: BoxArray)
      reads this
    {
      forall mesh :: old(InStep(mesh)) && lev <= |mesh.grids| && (old(isInitialized) || mesh.grids == []) ==>
        InStep(WithLevel(mesh, lev, ba))
    }

    constructor (maxLevel: nat)
      ensures Valid() && fieldVec == [] && !isInitialized && |levelData| == maxLevel + 1 && InStep(Mesh([]))
    {
      fieldVec, infos, fidMap, isInitialized := [], [], map[], false;
      levelData := seq(maxLevel + 1, _ => Cleared);
    }

    /** One array for a field on every active level. */
    method AllocateFieldData(mesh: Mesh, info: FieldInfo)
      requires InStep(mesh)
      modifies this`levelData
      ensures InStep(mesh) && AllGrown(old(levelData), levelData, info)
    {
      if isInitialized {
        var was := levelData;
        for lev := 0 to |mesh.grids|
          invariant |levelData| == |was|
          invariant forall l :: 0 <= l < lev ==> levelData[l] == Grown(was[l], info)
          invariant forall l :: lev <= l < |was| ==> levelData[l] == was[l]
        {
          var data := levelData[lev].data;
          levelData := levelData[lev := Live(data.(fabs := data.fabs + [NewFab(mesh.grids[lev], info)]))];
        }
      }
    }

    /** Registers one more state of a field under the next free id. */
    method AddState(mesh: Mesh, p: nat, s: FieldState)
      requires Consistent(fieldVec, infos, fidMap, levelData) && InStep(mesh)
      requires p < |infos| && s !in infos[p].states
      modifies this`fieldVec, this`infos, this`fidMap, this`levelData
      ensures Consistent(fieldVec, infos, fidMap, levelData) && InStep(mesh)
      ensures fieldVec == old(fieldVec) + [NewField(old(infos[p]), p, s, |old(fieldVec)|)]
      ensures infos == old(infos)[p := WithState(old(infos[p]), s, |old(fieldVec)|)]
      ensures AllGrown(old(levelData), levelData, old(infos[p]))
    {
      var fname := FieldNameWithState(infos[p].baseName, s);
      var fid := |fieldVec|;
      var field := NewField(infos[p], p, s, fid);
      AllocateFieldData(mesh, infos[p]);
      StateKeepsConsistent(fieldVec, infos, fidMap, old(levelData), levelData, p, s);
      infos := infos[p := WithState(infos[p], s, fid)];
      fieldVec := fieldVec + [field];
      fidMap := fidMap[fname := fid];
    }

    /** Declares a field. A name that is already registered returns its field, if the
        parameters agree. A new name is refused for too many states or a reserved
        name; else its states get the next free ids, and every live level one array
        for each. With no states at all nothing is stored, but the final look-up
        enters the name under id zero: that alone breaks the invariant. */
    method DeclareField(mesh: Mesh, name: string, ncomp: nat, ngrow: nat, nstates: int, floc: FieldLoc)
      returns (r: Outcome)
      requires Valid() && InStep(mesh)
      modifies this
      ensures InStep(mesh) && isInitialized == old(isInitialized)
      ensures name in old(fidMap) ==> unchanged(this) && r == Known(fieldVec, infos, fidMap[name], ncomp, nstates, floc)
      ensures name in old(fidMap) ==>
                var info := infos[fieldVec[fidMap[name]].info];
                r == if info.ncomp == ncomp && info.nstates == nstates && info.floc == floc then Declared(fidMap[name])
                     else Inconsistent
      ensures name !in old(fidMap) && nstates > 3 ==> unchanged(this) && r == TooManyStates
      ensures name !in old(fidMap) && nstates <= 3 && !IsValidFieldName(name) ==> unchanged(this) && r == ReservedName
      ensures name !in old(fidMap) && 1 <= nstates <= 3 && IsValidFieldName(name) ==>
                && r == Declared(|old(fieldVec)|)
                && Progress(old(fieldVec), fieldVec, old(infos), infos, old(levelData), levelData,
                            FieldInfo(name, ncomp, ngrow, nstates, floc, map[]), nstates)
                && HasStates(fieldVec, infos, name, nstates)
      ensures name !in old(fidMap) && nstates < 1 && IsValidFieldName(name) ==>
                && fieldVec == old(fieldVec) && levelData == old(levelData) && fidMap == old(fidMap)[name := 0]
                && r == if fieldVec == [] then NoFieldToReturn else Declared(0)
      ensures Valid() <==> name in old(fidMap) || nstates >= 1 || !IsValidFieldName(name)
    {
      if name in fidMap {
        return Known(fieldVec, infos, fidMap[name], ncomp, nstates, floc);
      }
      if nstates > StateIndex(NM1) + 1 {
        return TooManyStates;
      }
      if !ValidName(name) {
        return ReservedName;
      }
      DeclareStates(mesh, FieldInfo(name, ncomp, ngrow, nstates, floc, map[]));
      if name !in fidMap {
        StrayEntryBreaks(fieldVec, fidMap, name);
        fidMap := fidMap[name := 0];
      }
      r := if fidMap[name] < |fieldVec| then Declared(fidMap[name]) else NoFieldToReturn;
    }

    /** Searches a name for the guard. */
    static predicate ValidName(name: string)
      ensures ValidName(name) <==> IsValidFieldName(name)
    {
      forall i :: 0 <= i < |name| ==> !OccursAt(name, i)
    }

    /** The states of a new field, one after the other. */
    method DeclareStates(mesh: Mesh, finfo: FieldInfo)
      requires Valid() && InStep(mesh) && IsNew(finfo, fidMap)
      modifies this`fieldVec, this`infos, this`fidMap, this`levelData
      ensures Consistent(fieldVec, infos, fidMap, levelData) && InStep(mesh)
      ensures finfo.nstates >= 1
              ==> HaveNew(infos, |infos|) && finfo.baseName in fidMap && fidMap[finfo.baseName] == |old(fieldVec)|
      ensures Progress(old(fieldVec), fieldVec, old(infos), infos, old(levelData), levelData, finfo,
                       if finfo.nstates < 0 then 0 else finfo.nstates)
      ensures finfo.nstates < 1 ==> fidMap == old(fidMap) && levelData == old(levelData)
      ensures 1 <= finfo.nstates <= 3 ==> HasStates(fieldVec, infos, finfo.baseName, finfo.nstates)
    {
      NewInfoKeepsConsistent(fieldVec, infos, fidMap, levelData, finfo);
      ghost var fields0, infos0, levels0 := fieldVec, infos, levelData;
      var p := |infos|;
      infos := infos + [finfo];
      var i := 0;
      while i < finfo.nstates
        invariant 0 <= i && (i <= finfo.nstates || i == 0)
        invariant Consistent(fieldVec, infos, fidMap, levelData) && InStep(mesh)
        invariant Progress(fields0, fieldVec, infos0, infos, levels0, levelData, finfo, i)
        invariant i == 0 ==> fidMap == old(fidMap) && levelData == levels0
      {
        ghost var fields, was, levels := fieldVec, infos, levelData;
        DescribesNext(infos[p], finfo, i, |fieldVec|);
        AddState(mesh, p, StateOf(i));
        NextProgress(fields0, fields, fieldVec, infos0, was, infos, levels0, levels, levelData, finfo, i);
        i := i + 1;
      }
      if finfo.nstates >= 1 {
        NewStateFound(fields0, fieldVec, infos0, infos, levels0, levelData, finfo, i, fidMap);
        if finfo.nstates <= 3 {
          DeclaredStates(fieldVec, infos, p, finfo, i);
        }
      }
    }

    /** Adds a state of a field that it does not have yet; returns the id of the state. */
    method CreateState(mesh: Mesh, k: nat, s: FieldState) returns (id: nat)
      requires Valid() && InStep(mesh) && k < |fieldVec|
      modifies this`fieldVec, this`infos, this`fidMap, this`levelData
      ensures Valid() && InStep(mesh)
      ensures id < |fieldVec| && fieldVec[id].info == old(fieldVec[k].info) && fieldVec[id].state == s
      ensures s in old(infos[fieldVec[k].info].states) ==>
                unchanged(this) && id == infos[fieldVec[k].info].states[s]
      ensures s !in old(infos[fieldVec[k].info].states) ==>
                && id == |old(fieldVec)|
                && fieldVec == old(fieldVec) + [NewField(old(infos[fieldVec[k].info]), old(fieldVec[k].info), s, id)]
                && AllGrown(old(levelData), levelData, old(infos[fieldVec[k].info]))
    {
      var p := fieldVec[k].info;
      StateFound(fieldVec, infos, k, s);
      if s !in infos[p].states {
        StateKeepsNew(infos, p, s, |fieldVec|);
        AddState(mesh, p, s);
        id := |fieldVec| - 1;
      } else {
        id := infos[p].states[s];
      }
    }

    predicate FieldExists(name: string, s: FieldState)
      reads this
    {
      FieldNameWithState(name, s) in fidMap
    }

    /** Looks a field up by base name and state; finds it exactly when it was declared
        with that state, and then no other field. */
    method GetField(name: string, s: FieldState) returns (found: bool, id: nat)
      requires Valid() && IsValidFieldName(name)
      ensures found <==> HasState(fieldVec, infos, name, s)
      ensures found ==> id < |fieldVec| && fieldVec[id].state == s && infos[fieldVec[id].info].baseName == name
      ensures found ==>
                forall k :: 0 <= k < |fieldVec| && fieldVec[k].state == s && infos[fieldVec[k].info].baseName == name
                  ==> k == id
      ensures found == FieldExists(name, s)
    {
      var fname := FieldNameWithState(name, s);
      found := fname in fidMap;
      id := if found then fidMap[fname] else 0;
      if found {
        var f := fieldVec[id];
        assert FieldListed(f, id, infos);
        NamesAreInjective(infos[f.info].baseName, f.state, name, s);
        assert IsState(fieldVec, infos, name, s, id);
      }
      forall k | 0 <= k < |fieldVec| && fieldVec[k].state == s && infos[fieldVec[k].info].baseName == name
        ensures found && k == id
      {
        assert FieldListed(fieldVec[k], k, infos);
      }
    }

    /** Sets whether regrids fill a field. */
    method SetFillpatch(k: nat, flag: bool)
      requires Valid() && k < |fieldVec|
      modifies this`fieldVec
      ensures Valid() && fieldVec == old(fieldVec)[k := old(fieldVec[k]).(fillpatchOnRegrid := flag)]
    {
      var fields := fieldVec[k := fieldVec[k].(fillpatchOnRegrid := flag)];
      OneFlag(fieldVec, k, flag);
      FlagKeepsConsistent(fieldVec, fields, infos, fidMap, levelData);
      fieldVec := fields;
    }

    method MakeNewLevelFromScratch(lev: nat, ba: BoxArray)
      requires Valid() && lev < |levelData|
      modifies this`levelData, this`isInitialized
      ensures Valid() && isInitialized && |levelData| == |old(levelData)|
      ensures levelData[lev].Live? && levelData == old(levelData)[lev := levelData[lev]] && levelData[lev].data.ba == ba
      ensures HoldsExpected(levelData[lev].data.fabs, fieldVec, infos, ba, Zero)
      ensures FollowsLevel(lev, ba)
    {
      InfoInRange(fieldVec, infos);
      var data := LevelData(ba, FreshFabs(fieldVec, infos, ba));
      LevelKeepsConsistent(fieldVec, infos, fidMap, levelData, lev, data);
      levelData := levelData[lev := Live(data)];
      isInitialized := true;
    }

    /** New arrays, then one filling pass over the fields that ask for it, each writing
        to the array at its own id. */
    method FilledFabs(ba: BoxArray, source: Content) returns (fabs: seq<Fab>)
      requires FieldsListed(fieldVec, infos)
      ensures HoldsExpected(fabs, fieldVec, infos, ba, source) && FilledAsMarked(fabs, fieldVec, source)
    {
      InfoInRange(fieldVec, infos);
      fabs := FreshFabs(fieldVec, infos, ba);
      for k := 0 to |fieldVec|
        invariant |fabs| == |fieldVec|
        invariant forall l :: 0 <= l < k ==> fabs[l] == Expected(fieldVec[l], ba, infos, source)
        invariant forall l :: k <= l < |fieldVec| ==> fabs[l] == NewFab(ba, infos[fieldVec[l].info])
      {
        assert FieldListed(fieldVec[k], k, infos);
        if fieldVec[k].fillpatchOnRegrid {
          var id := fieldVec[k].id;
          fabs := fabs[id := fabs[id].(content := source)];
        }
      }
    }

    method Refill(lev: nat, ba: BoxArray, source: Content)
      requires Valid() && lev < |levelData|
      modifies this`levelData, this`isInitialized
      ensures Valid() && isInitialized && |levelData| == |old(levelData)|
      ensures levelData[lev].Live? && levelData == old(levelData)[lev := levelData[lev]] && levelData[lev].data.ba == ba
      ensures HoldsExpected(levelData[lev].data.fabs, fieldVec, infos, ba, source)
      ensures FilledAsMarked(levelData[lev].data.fabs, fieldVec, source)
      ensures FollowsLevel(lev, ba)
    {
      var fabs := FilledFabs(ba, source);
      LevelKeepsConsistent(fieldVec, infos, fidMap, levelData, lev, LevelData(ba, fabs));
      levelData := levelData[lev := Live(LevelData(ba, fabs))];
      isInitialized := true;
    }

    method MakeNewLevelFromCoarse(lev: nat, ba: BoxArray)
      requires Valid() && lev < |levelData|
      modifies this`levelData, this`isInitialized
      ensures Valid() && isInitialized && |levelData| == |old(levelData)|
      ensures levelData[lev].Live? && levelData == old(levelData)[lev := levelData[lev]] && levelData[lev].data.ba == ba
      ensures HoldsExpected(levelData[lev].data.fabs, fieldVec, infos, ba, FromCoarse)
      ensures FilledAsMarked(levelData[lev].data.fabs, fieldVec, FromCoarse)
      ensures FollowsLevel(lev, ba)
    {
      Refill(lev, ba, FromCoarse);
    }

    method RemakeLevel(lev: nat, ba: BoxArray)
      requires Valid() && lev < |levelData|
      modifies this`levelData, this`isInitialized
      ensures Valid() && isInitialized && |levelData| == |old(levelData)|
      ensures levelData[lev].Live? && levelData == old(levelData)[lev := levelData[lev]] && levelData[lev].data.ba == ba
      ensures HoldsExpected(levelData[lev].data.fabs, fieldVec, infos, ba, FromFill)
      ensures FilledAsMarked(levelData[lev].data.fabs, fieldVec, FromFill)
      ensures FollowsLevel(lev, ba)
    {
      Refill(lev, ba, FromFill);
    }

    /** Clears a level. Levels are cleared one after the other from some level up; when the
        last one is cleared, the repository is in step with the mesh that is left. */
    method ClearLevel(lev: nat)
      requires Valid() && lev < |levelData|
      modifies this`levelData
      ensures Valid() && levelData == old(levelData)[lev := Cleared]
      ensures forall mesh: Mesh, lo: nat :: lo <= lev < |mesh.grids| && old(InStepBut(mesh, lo, lev)) ==>
                InStepBut(mesh, lo, lev + 1) && (lev + 1 == |mesh.grids| ==> InStep(Mesh(mesh.grids[..lo])))
    {
      levelData := levelData[lev := Cleared];
      forall mesh: Mesh, lo: nat | lo <= lev < |mesh.grids| && old(InStepBut(mesh, lo, lev))
        ensures InStepBut(mesh, lo, lev + 1) && (lev + 1 == |mesh.grids| ==> InStep(Mesh(mesh.grids[..lo])))
      {
        assert InStepBut(mesh, lo, lev + 1);
        ClearedFrom(mesh, lo);
      }
    }
  }
}
