/** The durable side of pending approvals: records that outlive the process. */
module ApprovalStore {
  import opened Text

  datatype Info = Info(createdAt: int, expiresAt: int, details: string)

  datatype Record = Record(name: string, info: Info, plan: Option<int>)

  type Records = map<string, Record>

  /** A record is kept only under a name, and only if it has time to run. */
  predicate Storable(key: string, info: Info) {
    Strip(key) != "" && '\0' !in Strip(key) && info.expiresAt > info.createdAt
  }

  /** What the store keeps for a request; None if it refuses. */
  function RecordFor(key: string, info: Info, plan: Option<int>): Option<Record> {
    if Storable(key, info) then Some(Record(Strip(key), info, plan)) else None
  }

  /** A record as it is read back, if it is. */
  function Read(r: Record): Option<Record> {
    RecordFor(r.name, r.info, r.plan)
  }

  function LoadedBy(items: seq<Record>, read: Record -> Option<Record>): Records {
    if items == [] then map[]
    else
      var before, last := LoadedBy(items[..|items| - 1], read), read(items[|items| - 1]);
      if last.Some? then before[last.value.name := last.value] else before
  }

  /** Records as read back: each under its own name, the last one of a name winning. */
  function Loaded(items: seq<Record>): Records {
    LoadedBy(items, Read)
  }

  class PendingStore {
    var records: Records

    constructor (items: seq<Record>)
      ensures records == Loaded(items)
    {
      records := map[];
      new;
      for i := 0 to |items|
        invariant records == LoadedBy(items[..i], Read)
      {
        var r := Read(items[i]);
        assert items[..i + 1][..i] == items[..i];
        if r.Some? {
          records := records[r.value.name := r.value];
        }
      }
      assert items[..|items|] == items;
    }

    method Put(key: string, info: Info, plan: Option<int>) returns (ok: bool)
      modifies this
      ensures ok == RecordFor(key, info, plan).Some?
      ensures ok <==> Strip(key) != "" && '\0' !in Strip(key) && info.expiresAt > info.createdAt
      ensures ok ==> key in records && records[key] == Record(Strip(key), info, plan)
      ensures records == if ok then old(records)[key := RecordFor(key, info, plan).value] else old(records)
    {
      ok := Storable(key, info);
      if ok {
        records := records[key := Record(Strip(key), info, plan)];
      }
    }

    method Remove(key: string)
      modifies this
      ensures records == old(records) - {key}
    {
      if key in records {
        records := records - {key};
      }
    }
  }

  // ---- Reading back what was written ----

  lemma {:induction false} LStripNoSpace(s: string)
    ensures LStrip(s) == "" || !IsSpace(LStrip(s)[0])
  {
    if s != "" && IsSpace(s[0]) { LStripNoSpace(s[1..]); }
  }

  lemma {:induction false} RStripNoSpace(s: string)
    ensures RStrip(s) == "" || !IsSpace(RStrip(s)[|RStrip(s)| - 1])
    ensures s != "" && !IsSpace(s[0]) ==> RStrip(s) != "" && RStrip(s)[0] == s[0]
  {
    if s != "" && IsSpace(s[|s| - 1]) {
      RStripNoSpace(s[..|s| - 1]);
      if !IsSpace(s[0]) { assert |s| > 1 && s[..|s| - 1][0] == s[0]; }
    }
  }

  lemma {:induction false} StripTwice(s: string)
    ensures Strip(Strip(s)) == Strip(s)
  {
    LStripNoSpace(s);
    NoSpaceAround(LStrip(s), RStrip(LStrip(s)));
  }

  lemma {:induction false} NoSpaceAround(s: string, t: string)
    requires (s == "" || !IsSpace(s[0])) && t == RStrip(s)
    ensures Strip(t) == t
  {
    RStripNoSpace(s);
    StripsNothing(t);
  }

  lemma {:induction false} StripsNothing(s: string)
    requires s == "" || (!IsSpace(s[0]) && !IsSpace(s[|s| - 1]))
    ensures Strip(s) == s
  {
    assert LStrip(s) == s && RStrip(s) == s;
  }

  /** `items` are the records in some order, as a file holds them. */
  ghost predicate Holds(items: seq<Record>, records: Records) {
    && (forall k :: k in records ==> records[k] in items)
    && (forall r :: r in items ==> exists k :: k in records && records[k] == r)
  }

  /** Every record was put under a key whose stripped form is its name. */
  ghost predicate Written(records: Records) {
    forall k :: k in records ==> Storable(k, records[k].info) && records[k].name == Strip(k)
  }

  lemma {:induction false} LoadedNames(items: seq<Record>, read: Record -> Option<Record>)
    requires forall r :: r in items ==> read(r) == Some(r)
    ensures forall r :: r in items ==> r.name in LoadedBy(items, read)
    ensures forall n :: n in LoadedBy(items, read) ==>
              LoadedBy(items, read)[n] in items && LoadedBy(items, read)[n].name == n
  {
    if items != [] {
      var last, before := items[|items| - 1], items[..|items| - 1];
      assert items == before + [last];
      LoadedNames(before, read);
      OneMoreNamed(LoadedBy(before, read), before, last);
    }
  }

  lemma {:induction false} OneMoreNamed(records: Records, before: seq<Record>, last: Record)
    requires forall r :: r in before ==> r.name in records
    requires forall n :: n in records ==> records[n] in before && records[n].name == n
    ensures var more := records[last.name := last];
            && (forall r :: r in before + [last] ==> r.name in more)
            && (forall n :: n in more ==> more[n] in before + [last] && more[n].name == n)
  {
  }

  /** `loaded` has a record for the name of every key of `records`, each one of those that
      have this name. */
  ghost predicate Mirrors(name: string -> string, records: Records, loaded: Records) {
    && (forall k :: k in records ==> name(k) in loaded)
    && (forall n :: n in loaded ==> Sourced(name, records, n, loaded[n]))
  }

  ghost predicate Sourced(name: string -> string, records: Records, n: string, r: Record) {
    exists k :: k in records && name(k) == n && records[k] == r
  }

  lemma {:induction false} RecordsAreRead(items: seq<Record>, records: Records)
    requires Holds(items, records) && Written(records)
    ensures forall r :: r in items ==> Read(r) == Some(r)
  {
    forall r | r in items ensures Read(r) == Some(r) {
      var k :| k in records && records[k] == r;
      StripTwice(k);
    }
  }

  lemma {:induction false} LoadedMirrors(items: seq<Record>, records: Records, name: string -> string,
                                         read: Record -> Option<Record>)
    requires Holds(items, records) && forall r :: r in items ==> read(r) == Some(r)
    requires forall k :: k in records ==> records[k].name == name(k)
    ensures Mirrors(name, records, LoadedBy(items, read))
  {
    var loaded := LoadedBy(items, read);
    LoadedNames(items, read);
    forall k | k in records ensures name(k) in loaded {
      assert records[k] in items;
    }
    forall n | n in loaded ensures Sourced(name, records, n, loaded[n]) {
      var k :| k in records && records[k] == loaded[n];
      assert name(k) == n;
    }
  }

  lemma {:induction false} SourcedIsWritten(records: Records, n: string, r: Record)
    requires Written(records) && Sourced(Strip, records, n, r)
    ensures Storable(n, r.info) && r.name == Strip(n)
  {
    var k :| k in records && Strip(k) == n && records[k] == r;
    StripTwice(k);
  }

  lemma {:induction false} LaterOnesStay(items: seq<Record>, i: nat, read: Record -> Option<Record>)
    requires i < |items| && read(items[i]).Some?
    requires forall j :: i < j < |items| && read(items[j]).Some? ==> read(items[j]).value.name != read(items[i]).value.name
    ensures var r := read(items[i]).value; r.name in LoadedBy(items, read) && LoadedBy(items, read)[r.name] == r
  {
    var front := items[..|items| - 1];
    if i < |front| {
      assert forall j :: 0 <= j < |front| ==> front[j] == items[j];
      LaterOnesStay(front, i, read);
    }
  }

  /** Of several records in a file with one name the last one counts. */
  lemma {:induction false} LastOneCounts(items: seq<Record>, i: nat)
    requires i < |items| && Read(items[i]).Some?
    requires forall j :: i < j < |items| && Read(items[j]).Some? ==> Strip(items[j].name) != Strip(items[i].name)
    ensures var name := Strip(items[i].name);
            name in Loaded(items) && Loaded(items)[name] == Record(name, items[i].info, items[i].plan)
  {
    LaterOnesStay(items, i, Read);
  }

  /** Reading a file back gives a record for every stripped key, and each is one that was
      written under such a key. */
  lemma {:induction false} ReadsBack(items: seq<Record>, records: Records)
    requires Holds(items, records) && Written(records)
    ensures Mirrors(Strip, records, Loaded(items)) && Written(Loaded(items))
  {
    RecordsAreRead(items, records);
    LoadedMirrors(items, records, Strip, Read);
    forall n | n in Loaded(items) ensures Storable(n, Loaded(items)[n].info) && Loaded(items)[n].name == Strip(n) {
      SourcedIsWritten(records, n, Loaded(items)[n]);
    }
  }
}
