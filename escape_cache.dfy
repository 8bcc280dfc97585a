/**
  `escape` of lib/index.js: the sanitiser behind a memo table that lives for
  the whole process and is shared by every registration.
*/
module EscapeCache {
  import opened Wrappers
  import opened Sanitizer

  /** A name as the host passes it; `None` is an absent name (`undefined`). */
  type Label = Option<string>

  /** JavaScript falsiness of a label: absent or empty. */
  predicate IsFalsy(l: Label) {
    l == None || l == Some("")
  }

  /** What `escape` returns for a label, cache or no cache. */
  function Escaped(l: Label): Label {
    match l
    case None => None
    case Some(s) => Some(Sanitize(s))
  }

  /** A falsy label comes back as it went in (lib/index.js:10). */
  lemma EscapedFalsy(l: Label)
    requires IsFalsy(l)
    ensures Escaped(l) == l
  {
  }

  /** An escaped label is falsy exactly when it was absent or had no letter, digit or `-`. */
  lemma EscapedFalsyIff(l: Label)
    ensures IsFalsy(Escaped(l)) <==> l == None || !HasWordChar(l.value)
  {
    if l.Some? {
      SanitizeEmptyIff(l.value);
    }
  }

  /** Escaping twice is escaping once. */
  lemma EscapedIdempotent(l: Label)
    ensures Escaped(Escaped(l)) == Escaped(l)
  {
    if l.Some? {
      SanitizeIdempotent(l.value);
    }
  }

  /** Every entry holds the transform of its key. */
  predicate IsSound(entries: map<string, string>) {
    forall k :: k in entries ==> entries[k] == Sanitize(k)
  }

  /** The table after `escape(l)`: a falsy label writes nothing, any other stores its transform. */
  function Remember(entries: map<string, string>, l: Label): map<string, string> {
    if IsFalsy(l) then entries else entries[l.value := Sanitize(l.value)]
  }

  /** Remembering keeps the table sound, keeps every old entry, and adds at most the label. */
  lemma RememberGrows(entries: map<string, string>, l: Label)
    requires IsSound(entries)
    ensures IsSound(Remember(entries, l))
    ensures entries.Keys <= Remember(entries, l).Keys
    ensures forall k :: k in entries ==> Remember(entries, l)[k] == entries[k]
    ensures Remember(entries, l).Keys - entries.Keys <= if IsFalsy(l) then {} else {l.value}
  {
  }

  /** The memo table, a dictionary from raw label to its sanitised form. */
  class NameCache {
    var entries: map<string, string>

    ghost predicate Valid()
      reads this
    {
      IsSound(entries) && "" !in entries
    }

    constructor ()
      ensures Valid() && entries == map[]
    {
      entries := map[];
    }

    /**
      lib/index.js:9-24. A falsy label is returned untouched and not stored.
      Otherwise a cached value is served unless it is empty, in which case,
      as on a miss, the transform is computed and stored. The lookup reads
      own entries only; the lookup as written, which also sees members
      inherited from `Object.prototype`, is `EscapeOnPlainObject` below.
    */
    method Escape(value: Label) returns (r: Label)
      requires Valid()
      modifies this
      ensures Valid()
      ensures r == Escaped(value)
      ensures entries == Remember(old(entries), value)
    {
      if IsFalsy(value) {
        return value;
      }
      var key := value.value;
      var cached: Label := if key in entries then Some(entries[key]) else None;
      if IsFalsy(cached) {
        var v := TrimEdges(CollapseRuns(ReplaceUnsafe(key)));
        entries := entries[key := v];
        r := Some(v);
      } else {
        r := cached;
      }
    }
  }

  // ---------------------------------------------------------------------
  // The cache as written is a plain object literal `{}`.
  // ---------------------------------------------------------------------

  /** Members every plain JavaScript object inherits from `Object.prototype`; each is truthy. */
  const ObjectPrototypeMembers: set<string> :=
    {"constructor", "hasOwnProperty", "isPrototypeOf", "propertyIsEnumerable", "toLocaleString",
     "toString", "valueOf", "__proto__", "__defineGetter__", "__defineSetter__",
     "__lookupGetter__", "__lookupSetter__"}

  /** A value read from a JavaScript object by property name. */
  datatype JsValue = Undefined | Str(s: string) | InheritedMember(name: string)

  predicate IsTruthy(v: JsValue) {
    v.InheritedMember? || (v.Str? && v.s != "")
  }

  /** `cache[key]` on a plain object: own entries first, then the inherited members. */
  function PlainObjectGet(entries: map<string, string>, key: string): JsValue {
    if key in entries then Str(entries[key])
    else if key in ObjectPrototypeMembers then InheritedMember(key)
    else Undefined
  }

  /** What `escape` as written returns for a non-empty string label. */
  function EscapeOnPlainObject(entries: map<string, string>, value: string): JsValue
    requires value != ""
  {
    var v := PlainObjectGet(entries, value);
    if IsTruthy(v) then v else Str(Sanitize(value))
  }

  /**
    On a sound table, the plain-object lookup returns the sanitised label
    exactly when the label is not an inherited member name (or already has
    an own entry, which the lookup as written never creates for those).
  */
  lemma PlainObjectAgreesIff(entries: map<string, string>, value: string)
    requires IsSound(entries) && value != ""
    ensures EscapeOnPlainObject(entries, value) == Str(Sanitize(value))
            <==> value in entries || value !in ObjectPrototypeMembers
  {
  }

  /** `escape("toString")` on a fresh cache returns `Object.prototype.toString`, not "toString". */
  lemma PlainObjectToString()
    ensures EscapeOnPlainObject(map[], "toString") == InheritedMember("toString")
    ensures EscapeOnPlainObject(map[], "toString") != Str(Sanitize("toString"))
  {
    assert "toString" in ObjectPrototypeMembers;
  }

}
