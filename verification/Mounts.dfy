/** The mount table with its four indexes: what the indexes answer is what a scan of the
    de-duplicated lines would answer, for every chain of filters in any order. */
module Mounts {
  import opened Objects

  type Hash = nat

  datatype MountEntry = MountEntry(
    hash: Hash, mountID: string, parentID: string, majorMinor: string, root: string, mountPoint: string,
    optionalFields: seq<string>, filesystemType: string, mountSource: string)

  // ---------------------------------------------------------------- one line

  datatype Parsed = Skipped | Mounted(entry: MountEntry) | Crash

  /** Where the optional fields end: the first "-" at or after `i`, or the end of the line. */
  function Separator(tokens: seq<string>, i: nat): (k: nat)
    requires i <= |tokens|
    ensures i <= k <= |tokens|
    ensures k < |tokens| ==> tokens[k] == "-"
    ensures forall j :: i <= j < k ==> tokens[j] != "-"
    decreases |tokens| - i
  {
    if i < |tokens| && tokens[i] != "-" then Separator(tokens, i + 1) else i
  }

  /** parseMount on the fields of a line. Reading past the last field is a crash. */
  function Parse(tokens: seq<string>, hash: Hash): Parsed {
    if |tokens| < 8 then Skipped
    else
      var k := Separator(tokens, 6);
      if k + 3 >= |tokens| then Crash
      else Mounted(MountEntry(hash, tokens[0], tokens[1], tokens[2], tokens[3], tokens[4],
                            tokens[6..k], tokens[k + 1], tokens[k + 2]))
  }

  /** An entry written out in the order of mountinfo. */
  function Written(m: MountEntry, options: string, superOptions: string): seq<string> {
    [m.mountID, m.parentID, m.majorMinor, m.root, m.mountPoint, options]
    + (m.optionalFields + ["-", m.filesystemType, m.mountSource, superOptions])
  }

  /** The line is that entry written out, with some options; what stands behind them is not read. */
  ghost predicate Spells(tokens: seq<string>, m: MountEntry) {
    && "-" !in m.optionalFields
    && exists options, superOptions, rest :: tokens == Written(m, options, superOptions) + rest
  }

  lemma WrittenAt(tokens: seq<string>, m: MountEntry, options: string, superOptions: string, rest: seq<string>)
    requires tokens == Written(m, options, superOptions) + rest
    ensures
      var k := 6 + |m.optionalFields|;
      && k + 3 < |tokens| && tokens[..6] == [m.mountID, m.parentID, m.majorMinor, m.root, m.mountPoint, options]
      && tokens[6..k] == m.optionalFields && tokens[k] == "-"
      && tokens[k + 1] == m.filesystemType && tokens[k + 2] == m.mountSource
  {
  }

  lemma WrittenBy(tokens: seq<string>, k: nat)
    requires 6 <= k && k + 3 < |tokens| && tokens[k] == "-"
    ensures tokens == Written(MountEntry(0, tokens[0], tokens[1], tokens[2], tokens[3], tokens[4], tokens[6..k],
                                         tokens[k + 1], tokens[k + 2]), tokens[5], tokens[k + 3]) + tokens[k + 4..]
  {
  }

  /** A line is read as an entry exactly if it is that entry written out: every field is where it belongs. */
  lemma ParsedExactly(tokens: seq<string>, hash: Hash, m: MountEntry)
    ensures Parse(tokens, hash) == Mounted(m) <==> m.hash == hash && Spells(tokens, m)
  {
    if m.hash == hash && Spells(tokens, m) {
      var options, superOptions, rest :| tokens == Written(m, options, superOptions) + rest;
      WrittenAt(tokens, m, options, superOptions, rest);
      var k := Separator(tokens, 6);
      assert forall j :: 6 <= j < 6 + |m.optionalFields| ==> tokens[j] == tokens[6..6 + |m.optionalFields|][j - 6];
      assert k == 6 + |m.optionalFields|;
      assert forall i :: 0 <= i < 5 ==> tokens[i] == tokens[..6][i];
    }
    if Parse(tokens, hash) == Mounted(m) {
      var k := Separator(tokens, 6);
      WrittenBy(tokens, k);
      assert tokens == Written(m, tokens[5], tokens[k + 3]) + tokens[k + 4..];
    }
  }

  method ParseMount(tokens: seq<string>, hash: Hash) returns (parsed: Parsed)
    ensures parsed == Parse(tokens, hash)
    ensures parsed.Skipped? <==> |tokens| < 8
    ensures forall m :: parsed == Mounted(m) <==> m.hash == hash && Spells(tokens, m)
    ensures parsed.Crash? <==>
            |tokens| >= 8 && forall k :: 6 <= k < |tokens| - 3 ==> tokens[k] != "-"
    ensures parsed.Mounted? ==> "-" !in parsed.entry.optionalFields
  {
    forall m ensures Parse(tokens, hash) == Mounted(m) <==> m.hash == hash && Spells(tokens, m) {
      ParsedExactly(tokens, hash, m);
    }
    if |tokens| < 8 {
      return Skipped;
    }
    var optionalFields: seq<string> := [];
    var i := 6;
    while i < |tokens| && tokens[i] != "-"
      invariant 6 <= i <= |tokens|
      invariant optionalFields == tokens[6..i]
      invariant forall j :: 6 <= j < i ==> tokens[j] != "-"
      invariant Separator(tokens, 6) == Separator(tokens, i)
    {
      optionalFields := optionalFields + [tokens[i]];
      i := i + 1;
    }
    if i + 3 >= |tokens| {
      return Crash;
    }
    return Mounted(MountEntry(hash, tokens[0], tokens[1], tokens[2], tokens[3], tokens[4],
                            optionalFields, tokens[i + 1], tokens[i + 2]));
  }

  // ---------------------------------------------------------------- the table

  datatype Field = MountPoint | MountSource | MajorMinor | Root

  function ValueOf(m: MountEntry, f: Field): string {
    match f
    case MountPoint => m.mountPoint
    case MountSource => m.mountSource
    case MajorMinor => m.majorMinor
    case Root => m.root
  }

  type Table = map<Hash, MountEntry>
  type Index = map<string, seq<Hash>>

  function Lookup(index: Index, value: string): seq<Hash> {
    if value in index then index[value] else []
  }

  function Append(index: Index, value: string, h: Hash): Index {
    index[value := Lookup(index, value) + [h]]
  }

  /** An index lists, for each value, exactly the keys of the entries that have it, once each. */
  ghost predicate IndexOf(index: Index, table: Table, f: Field) {
    forall value ::
      && Distinct(Lookup(index, value))
      && forall h :: h in Lookup(index, value) <==> h in table && ValueOf(table[h], f) == value
  }

  ghost predicate Keyed(table: Table) {
    forall h :: h in table ==> table[h].hash == h
  }

  lemma AppendIndex(index: Index, table: Table, f: Field, h: Hash, m: MountEntry)
    requires IndexOf(index, table, f) && h !in table
    ensures IndexOf(Append(index, ValueOf(m, f), h), table[h := m], f)
  {
    var index', table' := Append(index, ValueOf(m, f), h), table[h := m];
    forall value
      ensures Distinct(Lookup(index', value))
      ensures forall g :: g in Lookup(index', value) <==> g in table' && ValueOf(table'[g], f) == value
    {
      assert Distinct(Lookup(index, value)) && h !in Lookup(index, value);
    }
  }

  /** The entries with a given value in a given field. */
  function Select(table: Table, f: Field, value: string): Table {
    map h | h in table && ValueOf(table[h], f) == value :: table[h]
  }

  /** What the four filters look for. */
  predicate HasValue(m: MountEntry, f: Field, value: string) {
    && (f == MountPoint ==> m.mountPoint == value)
    && (f == MountSource ==> m.mountSource == value)
    && (f == MajorMinor ==> m.majorMinor == value)
    && (f == Root ==> m.root == value)
  }

  lemma SelectsBy(table: Table, f: Field, value: string)
    ensures forall h :: h in Select(table, f, value) <==> h in table && HasValue(table[h], f, value)
  {
  }

  datatype Filter = Filter(field: Field, value: string)

  function SelectAll(table: Table, filters: seq<Filter>): Table {
    if filters == [] then table
    else SelectAll(Select(table, filters[0].field, filters[0].value), filters[1..])
  }

  ghost predicate Passes(m: MountEntry, filters: seq<Filter>) {
    forall i :: 0 <= i < |filters| ==> ValueOf(m, filters[i].field) == filters[i].value
  }

  /** A chain of filters keeps exactly the entries that satisfy every one of them... */
  lemma {:induction false} ChainIsConjunction(table: Table, filters: seq<Filter>)
    ensures SelectAll(table, filters) == map h | h in table && Passes(table[h], filters) :: table[h]
  {
    if filters != [] {
      var first, rest := filters[0], filters[1..];
      var once := Select(table, first.field, first.value);
      ChainIsConjunction(once, rest);
      forall h | h in table ensures Passes(table[h], filters) <==> h in once && Passes(table[h], rest) {
        if h in once && Passes(table[h], rest) {
          forall i | 0 <= i < |filters| ensures ValueOf(table[h], filters[i].field) == filters[i].value {
            assert i > 0 ==> filters[i] == rest[i - 1];
          }
        }
        if Passes(table[h], filters) {
          forall i | 0 <= i < |rest| ensures ValueOf(table[h], rest[i].field) == rest[i].value {
            assert rest[i] == filters[i + 1];
          }
        }
      }
    }
  }

  /** ...so their order does not matter. */
  lemma ChainOrderIrrelevant(table: Table, filters: seq<Filter>, reordered: seq<Filter>)
    requires multiset(filters) == multiset(reordered)
    ensures SelectAll(table, filters) == SelectAll(table, reordered)
  {
    ChainIsConjunction(table, filters);
    ChainIsConjunction(table, reordered);
    forall m: MountEntry ensures Passes(m, filters) <==> Passes(m, reordered) {
      SameMembers(filters, reordered);
      assert Passes(m, filters) <==> forall f :: f in filters ==> ValueOf(m, f.field) == f.value;
      assert Passes(m, reordered) <==> forall f :: f in reordered ==> ValueOf(m, f.field) == f.value;
    }
  }

  lemma SameMembers(a: seq<Filter>, b: seq<Filter>)
    requires multiset(a) == multiset(b)
    ensures forall f :: f in a <==> f in b
  {
    forall f ensures f in a <==> f in b {
      assert f in a <==> f in multiset(a);
    }
  }

  // ---------------------------------------------------------------- the raw lines

  /** A line as read: its text, known by its hash and its fields. */
  datatype Line = Line(hash: Hash, tokens: seq<string>)

  /** No two different lines share a hash. */
  ghost predicate CollisionFree(lines: seq<Line>) {
    forall i, j :: 0 <= i < |lines| && 0 <= j < |lines| && lines[i].hash == lines[j].hash ==> lines[i] == lines[j]
  }

  predicate IsMount(line: Line) {
    Parse(line.tokens, line.hash).Mounted?
  }

  function EntryOf(line: Line): MountEntry
    requires IsMount(line)
  {
    Parse(line.tokens, line.hash).entry
  }

  /** What parsing the lines adds to a table; a known hash is not parsed again. */
  function Extend(table: Table, lines: seq<Line>): Table {
    if lines == [] then table
    else
      var before := Extend(table, lines[..|lines| - 1]);
      var last := lines[|lines| - 1];
      if last.hash !in before && IsMount(last) then before[last.hash := EntryOf(last)] else before
  }

  lemma {:induction false} ExtendTwice(table: Table, lines: seq<Line>, more: seq<Line>)
    ensures Extend(Extend(table, lines), more) == Extend(table, lines + more)
  {
    if more == [] {
      assert lines + more == lines;
    } else {
      ExtendTwice(table, lines, more[..|more| - 1]);
      assert (lines + more)[..|lines + more| - 1] == lines + more[..|more| - 1];
    }
  }

  /** Without collisions the table holds the entry of every parseable line, once, and no others. */
  lemma {:induction false} ExtendIsDedup(lines: seq<Line>)
    requires CollisionFree(lines)
    ensures
      var table := Extend(map[], lines);
      && Keyed(table)
      && (forall line :: line in lines && IsMount(line) ==> line.hash in table && table[line.hash] == EntryOf(line))
      && (forall h :: h in table ==> exists line :: line in lines && IsMount(line) && line.hash == h && table[h] == EntryOf(line))
  {
    if lines != [] {
      var init, last := lines[..|lines| - 1], lines[|lines| - 1];
      assert lines == init + [last];
      assert CollisionFree(init);
      ExtendIsDedup(init);
      var before, table := Extend(map[], init), Extend(map[], lines);
      assert last in lines;
      forall line | line in lines && IsMount(line) ensures line.hash in table && table[line.hash] == EntryOf(line) {
        assert line in init || line == last;
      }
      forall h | h in table ensures exists line :: line in lines && IsMount(line) && line.hash == h && table[h] == EntryOf(line) {
        if h in before && table[h] == before[h] {
          var line :| line in init && IsMount(line) && line.hash == h && before[h] == EntryOf(line);
          assert line in lines;
        }
      }
    }
  }

  // ---------------------------------------------------------------- the object

  class MountInfo {
    var infoMap: Table
    var mountPointMap: Index
    var mountSourceMap: Index
    var majorMinorMap: Index
    var rootMap: Index

    function IndexFor(f: Field): Index
      reads this
    {
      match f
      case MountPoint => mountPointMap
      case MountSource => mountSourceMap
      case MajorMinor => majorMinorMap
      case Root => rootMap
    }

    ghost predicate Valid()
      reads this
    {
      && Keyed(infoMap)
      && IndexOf(mountPointMap, infoMap, MountPoint)
      && IndexOf(mountSourceMap, infoMap, MountSource)
      && IndexOf(majorMinorMap, infoMap, MajorMinor)
      && IndexOf(rootMap, infoMap, Root)
    }

    constructor ()
      ensures Valid() && infoMap == map[]
    {
      infoMap, mountPointMap, mountSourceMap, majorMinorMap, rootMap := map[], map[], map[], map[], map[];
    }

    /** Enter one mount in the table and all four indexes. */
    method Insert(m: MountEntry)
      requires Valid() && m.hash !in infoMap
      modifies this
      ensures Valid() && infoMap == old(infoMap)[m.hash := m]
    {
      AppendIndex(mountPointMap, infoMap, MountPoint, m.hash, m);
      AppendIndex(mountSourceMap, infoMap, MountSource, m.hash, m);
      AppendIndex(majorMinorMap, infoMap, MajorMinor, m.hash, m);
      AppendIndex(rootMap, infoMap, Root, m.hash, m);
      mountPointMap := Append(mountPointMap, m.mountPoint, m.hash);
      mountSourceMap := Append(mountSourceMap, m.mountSource, m.hash);
      majorMinorMap := Append(majorMinorMap, m.majorMinor, m.hash);
      rootMap := Append(rootMap, m.root, m.hash);
      infoMap := infoMap[m.hash := m];
    }

    /** parseMountInfo: extends the table line by line. `ok` is false if a line crashes the parser. */
    method ParseMountInfo(lines: seq<Line>) returns (ok: bool)
      requires Valid()
      modifies this
      ensures Valid()
      ensures ok ==> infoMap == Extend(old(infoMap), lines)
      ensures (forall line :: line in lines ==> !Parse(line.tokens, line.hash).Crash?) ==> ok
    {
      for i := 0 to |lines|
        invariant Valid()
        invariant infoMap == Extend(old(infoMap), lines[..i])
      {
        assert lines[..i + 1][..i] == lines[..i];
        if lines[i].hash in infoMap {
          continue;
        }
        var parsed := ParseMount(lines[i].tokens, lines[i].hash);
        match parsed
        case Skipped =>
        case Crash =>
          assert lines[i] in lines;
          return false;
        case Mounted(m) => Insert(m);
      }
      assert lines[..|lines|] == lines;
      return true;
    }

    /** filter: a fresh table of the listed keys. */
    method FilterKeys(hashes: seq<Hash>) returns (r: MountInfo)
      requires Valid() && Distinct(hashes)
      ensures fresh(r) && r.Valid()
      ensures r.infoMap == map h | h in infoMap && h in hashes :: infoMap[h]
    {
      r := new MountInfo();
      for i := 0 to |hashes|
        invariant fresh(r) && r.Valid()
        invariant r.infoMap == map h | h in infoMap && h in hashes[..i] :: infoMap[h]
      {
        assert hashes[..i + 1] == hashes[..i] + [hashes[i]];
        assert hashes[i] !in hashes[..i];
        if hashes[i] in infoMap {
          r.Insert(infoMap[hashes[i]]);
        }
      }
      assert hashes[..|hashes|] == hashes;
    }

    /** FilterByMountPoint, FilterByMountSource, FilterByMajorMinor and FilterByRoot. */
    method FilterBy(f: Field, value: string) returns (r: MountInfo)
      requires Valid()
      ensures fresh(r) && r.Valid()
      ensures r.infoMap == Select(infoMap, f, value)
      ensures forall h :: h in r.infoMap <==> h in infoMap && HasValue(infoMap[h], f, value)
    {
      var hashes := Lookup(IndexFor(f), value);
      assert IndexOf(IndexFor(f), infoMap, f);
      SelectsBy(infoMap, f, value);
      r := FilterKeys(hashes);
    }

    /** Any chain of filters, in the order given. */
    method FilterByAll(filters: seq<Filter>) returns (r: MountInfo)
      requires Valid()
      ensures r.Valid() && r.infoMap == SelectAll(infoMap, filters)
      ensures r.infoMap == map h | h in infoMap && Passes(infoMap[h], filters) :: infoMap[h]
    {
      r := this;
      for i := 0 to |filters|
        invariant r.Valid()
        invariant SelectAll(r.infoMap, filters[i..]) == SelectAll(infoMap, filters)
      {
        assert filters[i..][0] == filters[i] && filters[i..][1..] == filters[i + 1..];
        r := r.FilterBy(filters[i].field, filters[i].value);
      }
      assert filters[|filters|..] == [];
      ChainIsConjunction(infoMap, filters);
    }

    method IsEmpty() returns (empty: bool)
      ensures empty <==> infoMap == map[]
    {
      empty := |infoMap| == 0;
    }
  }

  /** newMountInfo over the process's and then the init process's lines, and any chain of filters
      on the result: what comes out is the entries of the lines that satisfy all the filters. */
  method ReadAndFilter(self: seq<Line>, root: seq<Line>, filters: seq<Filter>) returns (ok: bool, r: MountInfo)
    requires CollisionFree(self + root)
    ensures ok ==> forall m :: m in r.infoMap.Values <==>
              exists line :: line in self + root && IsMount(line) && EntryOf(line) == m && Passes(m, filters)
    ensures (forall line :: line in self + root ==> !Parse(line.tokens, line.hash).Crash?) ==> ok
  {
    var info := new MountInfo();
    r := info;
    ok := info.ParseMountInfo(self);
    if ok {
      ok := info.ParseMountInfo(root);
    }
    if ok {
      ExtendTwice(map[], self, root);
      ExtendIsDedup(self + root);
      ghost var table := info.infoMap;
      r := info.FilterByAll(filters);
      forall m
        ensures m in r.infoMap.Values <==>
                exists line :: line in self + root && IsMount(line) && EntryOf(line) == m && Passes(m, filters)
      {
        if m in r.infoMap.Values {
          var h :| h in r.infoMap && r.infoMap[h] == m;
          var line :| line in self + root && IsMount(line) && line.hash == h && table[h] == EntryOf(line);
        }
        if line :| line in self + root && IsMount(line) && EntryOf(line) == m && Passes(m, filters) {
          assert line.hash in r.infoMap && r.infoMap[line.hash] == m;
        }
      }
    }
  }

  // ---------------------------------------------------------------- staging

  /** The line is a mount of the volume's directory on the staging path. */
  predicate IsStaged(line: Line, volume: string, path: string) {
    IsMount(line) && EntryOf(line).root == "/" + volume && EntryOf(line).mountPoint == path
  }

  ghost predicate AnyStaged(lines: seq<Line>, volume: string, path: string) {
    exists line :: line in lines && IsStaged(line, volume, path)
  }

  /** stageVolumeMount against a mount table; `bound` is the line a bind mount adds, if it works. */
  ghost function Staged(lines: seq<Line>, volume: string, path: string, bound: Option<Line>): seq<Line> {
    if AnyStaged(lines, volume, path) || bound.None? then lines else lines + [bound.value]
  }

  method StageVolumeMount(lines: seq<Line>, volume: string, path: string, bound: Option<Line>)
      returns (ok: bool, after: seq<Line>)
    requires CollisionFree(lines)
    ensures ok ==> after == Staged(lines, volume, path, bound)
    ensures !ok ==> after == lines
    ensures (forall line :: line in lines ==> !Parse(line.tokens, line.hash).Crash?) ==> ok
  {
    after := lines;
    var filters := [Filter(Root, "/" + volume), Filter(MountPoint, path)];
    var info;
    ok, info := ReadAndFilter(lines, [], filters);
    assert lines + [] == lines;
    if !ok {
      return;
    }
    forall line | line in lines && IsMount(line)
      ensures Passes(EntryOf(line), filters) <==> IsStaged(line, volume, path)
    {
      assert filters[0].field == Root && filters[1].field == MountPoint;
    }
    var empty := info.IsEmpty();
    assert empty <==> !AnyStaged(lines, volume, path) by {
      if !empty {
        var h :| h in info.infoMap;
        assert info.infoMap[h] in info.infoMap.Values;
      }
      if line :| line in lines && IsStaged(line, volume, path) {
        assert EntryOf(line) in info.infoMap.Values;
      }
    }
    if empty && bound.Some? {
      after := lines + [bound.value];
    }
  }

  ghost function StagedAll(lines: seq<Line>, volume: string, path: string, bounds: seq<Option<Line>>): seq<Line> {
    if bounds == [] then lines
    else Staged(StagedAll(lines, volume, path, bounds[..|bounds| - 1]), volume, path, bounds[|bounds| - 1])
  }

  /** Any number of stage calls for one volume and path adds at most one mount, and none at all
      to a table that already has it. */
  lemma {:induction false} StagingIdempotent(lines: seq<Line>, volume: string, path: string, bounds: seq<Option<Line>>)
    requires forall i :: 0 <= i < |bounds| && bounds[i].Some? ==> IsStaged(bounds[i].value, volume, path)
    ensures
      var after := StagedAll(lines, volume, path, bounds);
      && (after == lines || (AnyStaged(after, volume, path) && exists line :: after == lines + [line]))
      && (AnyStaged(lines, volume, path) ==> after == lines)
  {
    if bounds != [] {
      var n := |bounds| - 1;
      StagingIdempotent(lines, volume, path, bounds[..n]);
      var before := StagedAll(lines, volume, path, bounds[..n]);
      var after := Staged(before, volume, path, bounds[n]);
      if after != before {
        assert bounds[n].value in after;
        assert AnyStaged(after, volume, path);
      }
    }
  }
}
