// Microsoft 365 calendar: the local store of synchronised data and the
// encoder that serialises events into it (store_integration.py).

module Ms365Store {
  import opened Common

  // ---- key beautification ------------------------------------------------------------------

  predicate DoubleUnderscoreAt(s: string, i: int)
  {
    0 <= i < |s| - 1 && s[i] == '_' && s[i + 1] == '_'
  }

  /** `s.find("__")` from position `k`: the first index of a double underscore, or -1. */
  function FindDoubleFrom(s: string, k: nat): (i: int)
    requires k <= |s|
    ensures i == -1 || (k <= i && DoubleUnderscoreAt(s, i))
    ensures forall j :: k <= j && (i == -1 || j < i) ==> !DoubleUnderscoreAt(s, j)
    decreases |s| - k
  {
    if k + 1 >= |s| then -1
    else if s[k] == '_' && s[k + 1] == '_' then k
    else FindDoubleFrom(s, k + 1)
  }

  function FindDouble(s: string): (i: int)
    ensures i == -1 || DoubleUnderscoreAt(s, i)
    ensures forall j :: 0 <= j && (i == -1 || j < i) ==> !DoubleUnderscoreAt(s, j)
  {
    FindDoubleFrom(s, 0)
  }

  /** `_beautify_key`: the part after the first "__", unless there is none or it opens the key. */
  function BeautifyKey(key: string): (r: string)
    ensures FindDouble(key) <= 0 ==> r == key
    ensures FindDouble(key) > 0 ==> r == key[FindDouble(key) + 2..] && |r| <= |key| - 3
  {
    var i := FindDouble(key);
    if i <= 0 then key else key[i + 2..]
  }

  /** A name-mangled private attribute `_Class__name` is stored under `name`. */
  lemma MangledNameIsUnmangled(cls: string, name: string)
    requires cls != [] && forall j :: 0 <= j < |cls| ==> cls[j] != '_'
    ensures BeautifyKey("_" + cls + "__" + name) == name
  {
    var key := "_" + cls + "__" + name;
    assert DoubleUnderscoreAt(key, |cls| + 1);
    forall j | 0 <= j < |cls| + 1
      ensures !DoubleUnderscoreAt(key, j)
    {
      if j < |cls| {
        assert key[j + 1] == cls[j];
      } else {
        assert key[j] == cls[j - 1];
      }
    }
    assert FindDouble(key) == |cls| + 1;
    assert key[|cls| + 3..] == name;
  }

  /** A dunder name or a name without "__" is kept as it is. */
  lemma PlainAndDunderNamesAreKept(key: string)
    requires HasPrefix(key, "__") || forall j :: 0 <= j ==> !DoubleUnderscoreAt(key, j)
    ensures BeautifyKey(key) == key
  {
    if HasPrefix(key, "__") {
      assert DoubleUnderscoreAt(key, 0);
    }
  }

  // ---- the encoder ----------------------------------------------------------------------

  datatype Json = JNull | JBool(b: bool) | JInt(i: int) | JStr(s: string) | JList(items: seq<Json>)
                | JObj(fields: map<string, Json>)

  /**
   * An attribute value of the object being encoded: a datetime (with its
   * `str` text), an object with a `value` (an enumeration member), or anything else.
   */
  datatype Attr = DateTimeAttr(text: string) | ValueAttr(value: Json) | PlainAttr(plain: Json)

  /** Keys never written: connection internals and anything private. */
  predicate Stored(key: string)
  {
    key != "con" && key != "protocol" && key != "main_resource" && key != "untrack" && !HasPrefix(key, "_")
  }

  function Encode(a: Attr): (j: Json)
    ensures a.DateTimeAttr? ==> j == JStr(a.text)
    ensures a.ValueAttr? ==> j == a.value
    ensures a.PlainAttr? ==> j == a.plain
  {
    match a
    case DateTimeAttr(t) => JStr(t)
    case ValueAttr(v) => v
    case PlainAttr(p) => p
  }

  /** The attributes dictionary after the first `|attrs|` attributes; a later attribute wins a shared key. */
  function Encoded(attrs: seq<(string, Attr)>): map<string, Json>
  {
    if |attrs| == 0 then map[]
    else
      var (name, value) := attrs[|attrs| - 1];
      var key := BeautifyKey(name);
      if Stored(key) then Encoded(attrs[..|attrs| - 1])[key := Encode(value)] else Encoded(attrs[..|attrs| - 1])
  }

  /** The stored keys are exactly the cleaned attribute names that are stored at all. */
  lemma EncodedKeys(attrs: seq<(string, Attr)>)
    ensures forall k :: k in Encoded(attrs) <==> Stored(k) && exists i :: 0 <= i < |attrs| && BeautifyKey(attrs[i].0) == k
  {
    forall k
      ensures k in Encoded(attrs) <==> Stored(k) && exists i :: 0 <= i < |attrs| && BeautifyKey(attrs[i].0) == k
    {
      if k in Encoded(attrs) {
        var i := EncodedKeyOrigin(attrs, k);
      }
      if Stored(k) && exists i :: 0 <= i < |attrs| && BeautifyKey(attrs[i].0) == k {
        var i :| 0 <= i < |attrs| && BeautifyKey(attrs[i].0) == k;
        EncodedKeyKept(attrs, i);
      }
    }
  }

  /** Every encoded key is stored and comes from some attribute. */
  lemma {:induction false} EncodedKeyOrigin(attrs: seq<(string, Attr)>, k: string) returns (i: nat)
    requires k in Encoded(attrs)
    ensures Stored(k) && i < |attrs| && BeautifyKey(attrs[i].0) == k
  {
    var prefix := attrs[..|attrs| - 1];
    var key := BeautifyKey(attrs[|attrs| - 1].0);
    if key == k && Stored(k) {
      i := |attrs| - 1;
    } else {
      if Stored(key) {
        assert Encoded(attrs) == Encoded(prefix)[key := Encode(attrs[|attrs| - 1].1)];
      } else {
        assert Encoded(attrs) == Encoded(prefix);
      }
      i := EncodedKeyOrigin(prefix, k);
      assert attrs[i] == prefix[i];
    }
  }

  /** Every stored cleaned name of an attribute is an encoded key. */
  lemma {:induction false} EncodedKeyKept(attrs: seq<(string, Attr)>, i: nat)
    requires i < |attrs| && Stored(BeautifyKey(attrs[i].0))
    ensures BeautifyKey(attrs[i].0) in Encoded(attrs)
  {
    var prefix := attrs[..|attrs| - 1];
    if i < |prefix| {
      assert prefix[i] == attrs[i];
      EncodedKeyKept(prefix, i);
    }
  }

  /** `JSONEncoder.default`: None for an object without attributes, else the encoded attributes. */
  method Default(o: Option<seq<(string, Attr)>>) returns (r: Option<map<string, Json>>)
    ensures r.None? <==> o.None?
    ensures r.Some? ==> r.value == Encoded(o.value)
  {
    if o.None? {
      return None;
    }
    var attrs := o.value;
    var attributes: map<string, Json> := map[];
    var i := 0;
    while i < |attrs|
      invariant 0 <= i <= |attrs|
      invariant attributes == Encoded(attrs[..i])
    {
      var key := BeautifyKey(attrs[i].0);
      if Stored(key) {
        var val;
        match attrs[i].1 {
          case DateTimeAttr(t) => val := JStr(t);
          case ValueAttr(v) => val := v;
          case PlainAttr(p) => val := p;
        }
        attributes := attributes[key := val];
      }
      assert attrs[..i + 1][..i] == attrs[..i];
      i := i + 1;
    }
    assert attrs[..|attrs|] == attrs;
    return Some(attributes);
  }

  /** The value stored under a key is the encoding of the last attribute that beautifies to it. */
  lemma {:induction false} LastAttributeWins(attrs: seq<(string, Attr)>, i: nat)
    requires i < |attrs| && Stored(BeautifyKey(attrs[i].0))
    requires forall j :: i < j < |attrs| ==> BeautifyKey(attrs[j].0) != BeautifyKey(attrs[i].0)
    ensures BeautifyKey(attrs[i].0) in Encoded(attrs)
    ensures Encoded(attrs)[BeautifyKey(attrs[i].0)] == Encode(attrs[i].1)
    decreases |attrs|
  {
    var prefix := attrs[..|attrs| - 1];
    EncodedStep(attrs);
    if i < |attrs| - 1 {
      assert prefix[i] == attrs[i];
      assert forall j :: i < j < |prefix| ==> prefix[j] == attrs[j];
      LastAttributeWins(prefix, i);
    }
  }

  lemma EncodedStep(attrs: seq<(string, Attr)>)
    requires |attrs| > 0
    ensures var key := BeautifyKey(attrs[|attrs| - 1].0);
            Encoded(attrs) == if Stored(key) then Encoded(attrs[..|attrs| - 1])[key := Encode(attrs[|attrs| - 1].1)]
                              else Encoded(attrs[..|attrs| - 1])
  {
  }

  // ---- the cached store -----------------------------------------------------------------

  /** What `async_load` returns: the cache when present, else what the backing store holds, or `{}`. */
  function Loaded(cache: Option<map<string, Json>>, stored: Option<map<string, Json>>): (d: map<string, Json>)
    ensures cache.Some? ==> d == cache.value
    ensures cache.None? && stored.Some? ==> d == stored.value
    ensures cache.None? && stored.None? ==> d == map[]
  {
    if cache.Some? then cache.value else stored.GetOr(map[])
  }

  /** Once loaded or saved, later loads ignore the backing store. */
  lemma LoadIsCached(cache: Option<map<string, Json>>, stored: Option<map<string, Json>>, other: Option<map<string, Json>>)
    ensures Loaded(Some(Loaded(cache, stored)), other) == Loaded(cache, stored)
  {
  }

  class LocalCalendarStore {
    /** `_data`: None until the first load or save. */
    var cache: Option<map<string, Json>>
    /** The data last handed to the delayed write, if any. */
    var pendingWrite: Option<map<string, Json>>

    constructor()
      ensures cache.None? && pendingWrite.None?
    {
      cache := None;
      pendingWrite := None;
    }

    /** `async_load`; `stored` is what the backing store would return, read only while nothing is cached. */
    method Load(stored: Option<map<string, Json>>) returns (data: map<string, Json>)
      modifies this
      ensures cache == Some(Loaded(old(cache), stored))
      ensures data == cache.value
      ensures pendingWrite == old(pendingWrite)
    {
      if cache.None? {
        cache := Some(stored.GetOr(map[]));
      }
      data := cache.value;
    }

    /** `async_save`: the cache becomes the data and a delayed write of it is scheduled. */
    method Save(data: map<string, Json>)
      modifies this
      ensures cache == Some(data) && pendingWrite == Some(data)
    {
      cache := Some(data);
      pendingWrite := Some(data);
    }
  }
}
