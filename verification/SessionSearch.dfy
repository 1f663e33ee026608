/** The loose search for a session id anywhere in a JSON document.  Objects are visited in an arbitrary
    order of their keys, as maps are. */
module SessionSearch {
  import opened Text

  /** A decoded JSON value.  A number that is no 64-bit integer carries the integer its floating-point
      value converts to; one too large for floating point is `Huge`. */
  datatype Json =
    | Null
    | Bool(b: bool)
    | Int(n: int)
    | Float(asInt: int)
    | Huge
    | Str(s: string)
    | Arr(elems: seq<Json>)
    | Obj(fields: map<string, Json>)

  // --------------------------------------------------------------- keys, values

  function Underscored(k: string): (r: string) {
    seq(|k|, i requires 0 <= i < |k| => if k[i] == '-' then '_' else k[i])
  }

  predicate SessionLikeKey(k: string) {
    var lk := ToLower(Underscored(k));
    || Contains(lk, "session_id")
    || HasSuffix(lk, "sessionid")
    || lk in {"session_key", "sessionkey", "mlink_session", "chatsessionid", "ilink_session",
              "conversation_id", "conv_id", "chat_session_id"}
  }

  /** The session string a value stands for; empty when it stands for none. */
  function SessionString(v: Json): (r: string) {
    match v
    case Str(s) => TrimSpace(s)
    case Int(n) => FormatInt(n)
    case Float(n) => FormatInt(n)
    case _ => ""
  }

  lemma KeyWith(before: string, stem: string, after: string)
    ensures Contains(ToLower(Underscored(before + stem + after)), ToLower(Underscored(stem)))
    ensures HasSuffix(ToLower(Underscored(before + stem)), ToLower(Underscored(stem)))
  {
    var k, p := ToLower(Underscored(before + stem + after)), ToLower(Underscored(stem));
    assert forall i | 0 <= i < |stem| :: (before + stem + after)[|before| + i] == stem[i];
    assert k[|before|..|before| + |p|] == p;
    assert At(k, p, |before|);
    var l := ToLower(Underscored(before + stem));
    assert forall i | 0 <= i < |stem| :: (before + stem)[|before| + i] == stem[i];
    assert l[|l| - |p|..] == p;
    assert l[|l| - |p|..|l| - |p| + |p|] == p;
  }

  /** A key in any mixture of cases, with hyphens for any of its underscores. */
  predicate Variant(stem: string, k: string) {
    |k| == |stem| && forall i | 0 <= i < |k| ::
      if stem[i] == '_' then k[i] in "_-"
      else 'a' <= stem[i] <= 'z' && (k[i] == stem[i] || k[i] as int + 32 == stem[i] as int)
  }

  lemma VariantFolds(stem: string, k: string)
    requires Variant(stem, k)
    ensures ToLower(Underscored(k)) == stem
  {
    forall i | 0 <= i < |k| ensures LowerChar(Underscored(k)[i]) == stem[i] { }
  }

  /** Keys that count: any with "session_id" in it or "sessionid" at its end, and eight more, each in any
      mixture of cases and with hyphens for underscores. */
  lemma SessionKeys(before: string, k: string, after: string)
    ensures Variant("session_id", k) ==> SessionLikeKey(before + k + after)
    ensures Variant("sessionid", k) ==> SessionLikeKey(before + k)
    ensures forall stem | stem in {"session_key", "sessionkey", "mlink_session", "chatsessionid", "ilink_session",
                                   "conversation_id", "conv_id", "chat_session_id"} ::
      Variant(stem, k) ==> SessionLikeKey(k)
  {
    hide ToLower, Underscored, Contains, HasSuffix, Variant;
    KeyWith(before, k, after);
    forall stem | Variant(stem, k) ensures ToLower(Underscored(k)) == stem { VariantFolds(stem, k); }
  }

  /** Keys that do not count. */
  lemma OtherKeys()
    ensures !SessionLikeKey("session") && !SessionLikeKey("token") && !SessionLikeKey("data") && !SessionLikeKey("id")
  {
    hide ToLower;
    assert ToLower(Underscored("session")) == "session" && ToLower(Underscored("token")) == "token"
      && ToLower(Underscored("data")) == "data" && ToLower(Underscored("id")) == "id" by { Others(); }
    hide Underscored;
    assert forall i :: !At("session", "session_id", i) && !At("token", "session_id", i);
    assert forall i :: !At("data", "session_id", i) && !At("id", "session_id", i);
  }

  lemma Others()
    ensures ToLower(Underscored("session")) == "session" && ToLower(Underscored("token")) == "token"
    ensures ToLower(Underscored("data")) == "data" && ToLower(Underscored("id")) == "id"
  {
  }

  /** Values that can be used: text that is not blank, trimmed, and numbers, in decimal; nothing else. */
  lemma UsableValues(s: string, n: int, b: bool, elems: seq<Json>, fields: map<string, Json>)
    ensures SessionString(Str(s)) == TrimSpace(s)
    ensures SessionString(Int(n)) == SessionString(Float(n)) == FormatInt(n)
    ensures SessionString(Null) == SessionString(Bool(b)) == SessionString(Huge) == ""
    ensures SessionString(Arr(elems)) == SessionString(Obj(fields)) == ""
  {
  }

  // ------------------------------------------------------- what can be found

  /** `s` is the usable value of a session-like key of this object itself. */
  ghost predicate Own(o: Json, s: string) {
    o.Obj? && s != "" && exists k | k in o.fields :: SessionLikeKey(k) && SessionString(o.fields[k]) == s
  }

  ghost predicate HasOwn(o: Json) {
    exists s :: Own(o, s)
  }

  /** A step into a nested object: through a field, or through an element of an array field. */
  datatype Hop = Field(key: string) | Item(key: string, index: nat)

  function Child(o: Json, hop: Hop): (r: Option<Json>)
    ensures r.Some? ==> r.value.Obj?
  {
    if !o.Obj? || hop.key !in o.fields then None
    else
      var v := o.fields[hop.key];
      match hop
      case Field(_) => if v.Obj? then Some(v) else None
      case Item(_, i) => if v.Arr? && i < |v.elems| && v.elems[i].Obj? then Some(v.elems[i]) else None
  }

  function Follow(o: Json, path: seq<Hop>): (r: Option<Json>) {
    if path == [] then Some(o)
    else
      match Child(o, path[0])
      case None => None
      case Some(c) => Follow(c, path[1..])
  }

  /** `s` is an own value of the object at the end of the path, and no object on the way has any. */
  ghost predicate FoundAt(o: Json, path: seq<Hop>, s: string) {
    if path == [] then Own(o, s)
    else !HasOwn(o) && Child(o, path[0]).Some? && FoundAt(Child(o, path[0]).value, path[1..], s)
  }

  ghost predicate Found(o: Json, s: string) {
    exists path :: FoundAt(o, path, s)
  }

  /** Nothing usable in any object that can be reached. */
  ghost predicate Barren(o: Json) {
    forall path :: Follow(o, path).Some? ==> !HasOwn(Follow(o, path).value)
  }

  lemma BarrenIfChildrenAre(o: Json)
    requires !HasOwn(o)
    requires forall hop: Hop | Child(o, hop).Some? :: Barren(Child(o, hop).value)
    ensures Barren(o)
  {
    forall path | Follow(o, path).Some? ensures !HasOwn(Follow(o, path).value) {
      if path != [] {
        assert Barren(Child(o, path[0]).value);
      }
    }
  }

  lemma ChildOfBarren(o: Json, hop: Hop)
    requires Barren(o) && Child(o, hop).Some?
    ensures Barren(Child(o, hop).value)
  {
    var c := Child(o, hop).value;
    forall path | Follow(c, path).Some? ensures !HasOwn(Follow(c, path).value) {
      assert ([hop] + path)[1..] == path;
      assert Follow(o, [hop] + path) == Follow(c, path);
    }
  }

  /** A value found is a value in a reachable object, so a barren document yields none. */
  lemma {:induction false} FoundIsReachable(o: Json, path: seq<Hop>, s: string)
    requires FoundAt(o, path, s)
    ensures Follow(o, path).Some? && Own(Follow(o, path).value, s)
    ensures !Barren(o)
  {
    if path != [] { FoundIsReachable(Child(o, path[0]).value, path[1..], s); }
    assert HasOwn(Follow(o, path).value);
  }

  lemma FoundInChild(o: Json, hop: Hop, s: string)
    requires !HasOwn(o) && Child(o, hop).Some? && Found(Child(o, hop).value, s)
    ensures Found(o, s)
  {
    var path :| FoundAt(Child(o, hop).value, path, s);
    assert ([hop] + path)[1..] == path;
    assert FoundAt(o, [hop] + path, s);
  }

  /** An id one object deep, and one in an array of objects, are found. */
  lemma FoundNested(key: string, id: string)
    requires TrimSpace(id) == id && id != "" && !SessionLikeKey(key)
    ensures var inner := Obj(map["session_id" := Str(id)]);
      Found(Obj(map[key := inner]), id) && Found(Obj(map[key := Arr([Null, inner])]), id)
  {
    hide TrimSpace, SessionLikeKey, Found, HasOwn, Own;
    var inner := Obj(map["session_id" := Str(id)]);
    var a, b := Obj(map[key := inner]), Obj(map[key := Arr([Null, inner])]);
    PlainId(id);
    NoneOwn(key, inner);
    NoneOwn(key, Arr([Null, inner]));
    FoundInChildOf(a, Field(key), inner, id);
    FoundInChildOf(b, Item(key, 1), inner, id);
  }

  lemma PlainId(id: string)
    requires TrimSpace(id) == id && id != ""
    ensures Found(Obj(map["session_id" := Str(id)]), id)
  {
    assert Variant("session_id", "session_id");
    SessionKeys("", "session_id", "");
    assert "" + "session_id" + "" == "session_id";
    hide TrimSpace, SessionLikeKey, Variant;
    var o := Obj(map["session_id" := Str(id)]);
    assert SessionString(o.fields["session_id"]) == id;
    assert FoundAt(o, [], id);
  }

  lemma NoneOwn(key: string, v: Json)
    requires !SessionLikeKey(key)
    ensures !HasOwn(Obj(map[key := v]))
  {
    hide TrimSpace, SessionLikeKey, SessionString;
  }

  lemma FoundInChildOf(o: Json, hop: Hop, c: Json, s: string)
    requires !HasOwn(o) && Child(o, hop) == Some(c) && Found(c, s)
    ensures Found(o, s)
  {
    FoundInChild(o, hop, s);
  }

  // --------------------------------------------------------------- the search

  /** Own keys first, then nested objects, in any order of keys.  Whatever the order: the result is empty
      exactly when nothing usable is reachable, and otherwise it is a value of some reachable object on
      the way to which no object has a usable value of its own. */
  method FindSession(o: Json) returns (s: string)
    requires o.Obj?
    ensures s == "" <==> Barren(o)
    ensures s != "" ==> Found(o, s)
    ensures HasOwn(o) ==> Own(o, s)
    decreases o, 1
  {
    var todo := o.fields.Keys;
    while todo != {}
      invariant todo <= o.fields.Keys
      invariant forall k | k in o.fields && k !in todo && SessionLikeKey(k) :: SessionString(o.fields[k]) == ""
      decreases todo
    {
      var k :| k in todo;
      if SessionLikeKey(k) {
        s := SessionString(o.fields[k]);
        if s != "" {
          assert Own(o, s);
          assert FoundAt(o, [], s);
          FoundIsReachable(o, [], s);
          return;
        }
      }
      todo := todo - {k};
    }
    assert !HasOwn(o);
    todo := o.fields.Keys;
    while todo != {}
      invariant todo <= o.fields.Keys
      invariant forall hop: Hop | Child(o, hop).Some? && hop.key !in todo :: Barren(Child(o, hop).value)
      decreases todo
    {
      var k :| k in todo;
      s := FindInField(o, k);
      if s != "" {
        ghost var path :| FoundAt(o, path, s);
        FoundIsReachable(o, path, s);
        return;
      }
      todo := todo - {k};
    }
    BarrenIfChildrenAre(o);
    s := "";
  }

  /** One field: a nested object, or an array whose object elements are searched in order. */
  method FindInField(o: Json, k: string) returns (s: string)
    requires o.Obj? && k in o.fields && !HasOwn(o)
    ensures s != "" ==> Found(o, s)
    ensures s == "" ==> forall hop: Hop | hop.key == k && Child(o, hop).Some? :: Barren(Child(o, hop).value)
    decreases o, 0
  {
    var v := o.fields[k];
    s := "";
    if v.Obj? {
      s := FindSession(v);
      if s != "" { FoundInChild(o, Field(k), s); }
    } else if v.Arr? {
      for i := 0 to |v.elems|
        invariant s == ""
        invariant forall j: nat | j < i && v.elems[j].Obj? :: Barren(v.elems[j])
      {
        if v.elems[i].Obj? {
          s := FindSession(v.elems[i]);
          if s != "" {
            assert Child(o, Item(k, i)) == Some(v.elems[i]);
            FoundInChild(o, Item(k, i), s);
            return;
          }
        }
      }
    }
  }

  /** The search in a getconfig answer looks under "data" once more when the first search came back empty.
      The result is what the first search alone would give: empty exactly when nothing usable is
      reachable, so the second search never finds anything. */
  method SessionFromGetConfig(doc: Option<Json>) returns (s: string, ghost first: string)
    ensures doc.None? || !doc.value.Obj? ==> s == ""
    ensures doc.Some? && doc.value.Obj? ==>
      && (s == "" <==> Barren(doc.value)) && (s != "" ==> Found(doc.value, s)) && s == first
  {
    first := "";
    if doc.None? || !doc.value.Obj? { return "", first; }
    var o := doc.value;
    s := FindSession(o);
    first := s;
    if s != "" { return; }
    if "data" !in o.fields { return; }
    var v := o.fields["data"];
    if !v.Obj? { return; }
    assert Child(o, Field("data")) == Some(v);
    ChildOfBarren(o, Field("data"));
    s := FindSession(v);
  }

  // ------------------------------------------------- filling in a missing id

  class Inbound {
    /** The session ids of the message under their standard names, in order of preference. */
    var ids: seq<string>

    /** The first id that is not blank. */
    function SessionID(): (r: string)
      reads this
    {
      FirstNonBlank(ids)
    }

    /** Only a message without a session id gets one, and then one that is in its raw form. */
    method Supplement(raw: Option<Json>)
      requires ids != []
      modifies this
      ensures old(SessionID()) != "" || raw.None? || !raw.value.Obj? || Barren(raw.value) ==> ids == old(ids)
      ensures old(SessionID()) == "" && raw.Some? && raw.value.Obj? && !Barren(raw.value) ==>
        |ids| == |old(ids)| && ids[1..] == old(ids)[1..] && Found(raw.value, ids[0])
    {
      if SessionID() != "" { return; }
      if raw.None? || !raw.value.Obj? { return; }
      var s := FindSession(raw.value);
      if s != "" { ids := ids[0 := s]; }
    }
  }
}
