/** Session identities inside JSON documents: where they are, and how they are renamed. */
module JsonIdentity {

  datatype Json = Scalar(value: int) | Text(text: string) | Array(items: Items) | Object(fields: Fields)

  datatype Items = NoItems | Item(head: Json, tail: Items)

  datatype Fields = NoFields | Field(name: string, value: Json, rest: Fields)

  const SESSION_FIELDS := {
    "session_id", "execution_session_key", "chat_id", "media_source_chat_id", "parent_chat_id", "source_chat_id"}

  /** Legacy keys and their canonical keys. */
  type Mapping = map<string, string>

  function Target(m: Mapping, key: string): string {
    if key in m then m[key] else key
  }

  predicate IsIdentity(name: string, value: Json) {
    name in SESSION_FIELDS && value.Text?
  }

  // ---- Renaming ----

  /** `_rewrite_json_identity`. */
  function Rewritten(v: Json, m: Mapping): Json {
    match v
    case Array(items) => Array(RewrittenItems(items, m))
    case Object(fields) => Object(RewrittenFields(fields, m))
    case _ => v
  }

  function RewrittenItems(items: Items, m: Mapping): Items {
    match items
    case NoItems => NoItems
    case Item(head, tail) => Item(Rewritten(head, m), RewrittenItems(tail, m))
  }

  function RewrittenFields(fields: Fields, m: Mapping): Fields {
    match fields
    case NoFields => NoFields
    case Field(name, value, rest) =>
      Field(name, if IsIdentity(name, value) then Text(Target(m, value.text)) else Rewritten(value, m),
            RewrittenFields(rest, m))
  }

  /** The number of changes it reports. */
  function Changes(v: Json, m: Mapping): nat {
    match v
    case Array(items) => ItemChanges(items, m)
    case Object(fields) => FieldChanges(fields, m)
    case _ => 0
  }

  function ItemChanges(items: Items, m: Mapping): nat {
    match items
    case NoItems => 0
    case Item(head, tail) => Changes(head, m) + ItemChanges(tail, m)
  }

  function FieldChanges(fields: Fields, m: Mapping): nat {
    match fields
    case NoFields => 0
    case Field(name, value, rest) =>
      (if IsIdentity(name, value) then (if value.text in m && m[value.text] != value.text then 1 else 0)
       else Changes(value, m))
      + FieldChanges(rest, m)
  }

  // ---- Looking ----

  /** `_json_identity_values`. */
  function Values(v: Json): seq<string> {
    match v
    case Array(items) => ItemValues(items)
    case Object(fields) => FieldValues(fields)
    case _ => []
  }

  function ItemValues(items: Items): seq<string> {
    match items
    case NoItems => []
    case Item(head, tail) => Values(head) + ItemValues(tail)
  }

  function FieldValues(fields: Fields): seq<string> {
    match fields
    case NoFields => []
    case Field(name, value, rest) =>
      (if IsIdentity(name, value) then [value.text]
       else if value.Array? || value.Object? then Values(value)
       else []) + FieldValues(rest)
  }

  /** The document with its identities blanked out. */
  function Masked(v: Json): Json {
    match v
    case Array(items) => Array(MaskedItems(items))
    case Object(fields) => Object(MaskedFields(fields))
    case _ => v
  }

  function MaskedItems(items: Items): Items {
    match items
    case NoItems => NoItems
    case Item(head, tail) => Item(Masked(head), MaskedItems(tail))
  }

  function MaskedFields(fields: Fields): Fields {
    match fields
    case NoFields => NoFields
    case Field(name, value, rest) =>
      Field(name, if IsIdentity(name, value) then Text("") else Masked(value), MaskedFields(rest))
  }

  // ---- Renaming is what looking sees, and nothing else ----

  function Targets(m: Mapping, keys: seq<string>): (ts: seq<string>)
    ensures |ts| == |keys|
  {
    if keys == [] then [] else [Target(m, keys[0])] + Targets(m, keys[1..])
  }

  function Moved(m: Mapping, keys: seq<string>): nat {
    if keys == [] then 0 else (if Target(m, keys[0]) != keys[0] then 1 else 0) + Moved(m, keys[1..])
  }

  lemma {:induction false} TargetsConcat(m: Mapping, a: seq<string>, b: seq<string>)
    ensures Targets(m, a + b) == Targets(m, a) + Targets(m, b)
    ensures Moved(m, a + b) == Moved(m, a) + Moved(m, b)
  {
    if a == [] {
      assert a + b == b;
    } else {
      assert (a + b)[1..] == a[1..] + b;
      TargetsConcat(m, a[1..], b);
    }
  }

  /** The identities of a rewritten document are the targets of those it had, in order; as
      many are reported as changed as have changed; nothing but identities is touched. */
  lemma {:induction false} RewriteRenames(v: Json, m: Mapping)
    ensures Values(Rewritten(v, m)) == Targets(m, Values(v))
    ensures Changes(v, m) == Moved(m, Values(v))
    ensures Masked(Rewritten(v, m)) == Masked(v)
  {
    match v
    case Array(items) => RewriteRenamesItems(items, m);
    case Object(fields) => RewriteRenamesFields(fields, m);
    case _ =>
  }

  lemma {:induction false} RewriteRenamesItems(items: Items, m: Mapping)
    ensures ItemValues(RewrittenItems(items, m)) == Targets(m, ItemValues(items))
    ensures ItemChanges(items, m) == Moved(m, ItemValues(items))
    ensures MaskedItems(RewrittenItems(items, m)) == MaskedItems(items)
  {
    match items
    case NoItems =>
    case Item(head, tail) =>
      RewriteRenames(head, m);
      RewriteRenamesItems(tail, m);
      TargetsConcat(m, Values(head), ItemValues(tail));
  }

  lemma {:induction false} RewriteRenamesFields(fields: Fields, m: Mapping)
    ensures FieldValues(RewrittenFields(fields, m)) == Targets(m, FieldValues(fields))
    ensures FieldChanges(fields, m) == Moved(m, FieldValues(fields))
    ensures MaskedFields(RewrittenFields(fields, m)) == MaskedFields(fields)
  {
    match fields
    case NoFields =>
    case Field(name, value, rest) =>
      RewriteRenamesFields(rest, m);
      if IsIdentity(name, value) {
        TargetsConcat(m, [value.text], FieldValues(rest));
        assert [value.text][1..] == [] && Targets(m, [value.text]) == [Target(m, value.text)];
      } else {
        RewriteRenames(value, m);
        TargetsConcat(m, Values(value), FieldValues(rest));
      }
  }

  lemma {:induction false} TargetsAt(m: Mapping, keys: seq<string>, y: string)
    ensures y in Targets(m, keys) <==> exists x :: x in keys && Target(m, x) == y
  {
    if keys != [] {
      TargetsAt(m, keys[1..], y);
      assert keys == [keys[0]] + keys[1..];
      assert keys[0] in keys;
    }
  }

  /** A legacy key is left in a rewritten document just when one of its keys was mapped to
      what is a legacy key itself. */
  lemma {:induction false} LegacyLeft(v: Json, m: Mapping)
    ensures (exists y :: y in Values(Rewritten(v, m)) && y in m) <==>
            (exists x :: x in Values(v) && x in m && m[x] in m)
  {
    RewriteRenames(v, m);
    if y :| y in Values(Rewritten(v, m)) && y in m {
      TargetsAt(m, Values(v), y);
    }
    if x :| x in Values(v) && x in m && m[x] in m {
      TargetsAt(m, Values(v), m[x]);
      assert m[x] in Values(Rewritten(v, m));
    }
  }

  predicate Settled(m: Mapping, keys: seq<string>) {
    forall x :: x in keys ==> Target(m, Target(m, x)) == Target(m, x)
  }

  lemma {:induction false} SettledConcat(m: Mapping, a: seq<string>, b: seq<string>)
    requires Settled(m, a + b)
    ensures Settled(m, a) && Settled(m, b)
  {
    forall x | x in a ensures Target(m, Target(m, x)) == Target(m, x) { assert x in a + b; }
    forall x | x in b ensures Target(m, Target(m, x)) == Target(m, x) { assert x in a + b; }
  }

  /** If targets are not renamed further, a second pass changes nothing. */
  lemma {:induction false} RewriteOnce(v: Json, m: Mapping)
    requires Settled(m, Values(v))
    ensures Rewritten(Rewritten(v, m), m) == Rewritten(v, m) && Changes(Rewritten(v, m), m) == 0
  {
    match v
    case Array(items) => RewriteOnceItems(items, m);
    case Object(fields) => RewriteOnceFields(fields, m);
    case _ =>
  }

  lemma {:induction false} RewriteOnceItems(items: Items, m: Mapping)
    requires Settled(m, ItemValues(items))
    ensures RewrittenItems(RewrittenItems(items, m), m) == RewrittenItems(items, m)
    ensures ItemChanges(RewrittenItems(items, m), m) == 0
  {
    match items
    case NoItems =>
    case Item(head, tail) =>
      SettledConcat(m, Values(head), ItemValues(tail));
      RewriteOnce(head, m);
      RewriteOnceItems(tail, m);
  }

  lemma {:induction false} RewriteOnceFields(fields: Fields, m: Mapping)
    requires Settled(m, FieldValues(fields))
    ensures RewrittenFields(RewrittenFields(fields, m), m) == RewrittenFields(fields, m)
    ensures FieldChanges(RewrittenFields(fields, m), m) == 0
  {
    match fields
    case NoFields =>
    case Field(name, value, rest) =>
      if IsIdentity(name, value) {
        SettledConcat(m, [value.text], FieldValues(rest));
        assert value.text in [value.text];
      } else {
        SettledConcat(m, Values(value), FieldValues(rest));
        RewriteOnce(value, m);
      }
      RewriteOnceFields(rest, m);
  }
}
