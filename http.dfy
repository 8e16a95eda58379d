/**
 * The pieces of net/http and of the process identity that both the server
 * and the proxy handler use.
 */
module Http {

  /** A character allowed in a header field name (an RFC 7230 token character). */
  predicate IsTokenChar(c: char) {
    || 'a' <= c <= 'z'
    || 'A' <= c <= 'Z'
    || '0' <= c <= '9'
    || c in "!#$%&'*+-.^_`|~"
  }

  predicate IsToken(s: string) {
    forall i :: 0 <= i < |s| ==> IsTokenChar(s[i])
  }

  function ToUpper(c: char): char {
    if 'a' <= c <= 'z' then (c as int - 32) as char else c
  }

  function ToLower(c: char): char {
    if 'A' <= c <= 'Z' then (c as int + 32) as char else c
  }

  /** The case a canonical key has at position i: upper at the start and after each '-'. */
  function CanonicalAt(key: string, i: nat): char
    requires i < |key|
  {
    if i == 0 || key[i - 1] == '-' then ToUpper(key[i]) else ToLower(key[i])
  }

  /**
   * The canonical form of a header key, as net/http stores it: a key made of
   * token characters has its first letter and every letter after a '-' in
   * upper case and all other letters in lower case; any other key is kept
   * as written.
   */
  function CanonicalKey(key: string): (r: string)
    ensures |r| == |key|
    ensures forall i :: 0 <= i < |key| ==> ToLower(r[i]) == ToLower(key[i])
    ensures IsToken(key) ==> IsToken(r) && forall i :: 0 <= i < |key| ==> r[i] == CanonicalAt(key, i)
    ensures !IsToken(key) ==> r == key
  {
    if IsToken(key) then seq(|key|, i requires 0 <= i < |key| => CanonicalAt(key, i)) else key
  }

  /** Canonicalising a canonical key changes nothing. */
  lemma CanonicalKeyIdempotent(key: string)
    ensures CanonicalKey(CanonicalKey(key)) == CanonicalKey(key)
  {
    if IsToken(key) {
      var r := CanonicalKey(key);
      forall i | 0 <= i < |r|
        ensures CanonicalKey(r)[i] == r[i]
      {
        assert r[i] == CanonicalAt(key, i);
        assert i > 0 ==> (r[i - 1] == '-' <==> key[i - 1] == '-');
      }
    }
  }

  /**
   * Two keys that can be told apart by their length or by their first
   * letter (ignoring case). Such keys never share a canonical form.
   */
  predicate Apart(a: string, b: string) {
    |a| != |b| || (|a| > 0 && ToLower(a[0]) != ToLower(b[0]))
  }

  /** Keys that are apart have different canonical forms, so setting one never touches the other. */
  lemma ApartKeysDiffer(a: string, b: string)
    requires Apart(a, b)
    ensures CanonicalKey(a) != CanonicalKey(b)
  {
    if |a| == |b| {
      assert CanonicalKey(a)[0] != CanonicalKey(b)[0];
    }
  }

  /** Characters with the same lower case have the same upper case, and only '-' lowers to '-'. */
  lemma SameLowerCase(x: char, y: char)
    requires ToLower(x) == ToLower(y)
    ensures ToUpper(x) == ToUpper(y)
    ensures x == '-' <==> y == '-'
  {
  }

  /** Two token keys that differ only in the case of their letters have the same canonical form. */
  lemma CanonicalKeyIgnoresCase(a: string, b: string)
    requires IsToken(a) && IsToken(b) && |a| == |b|
    requires forall i :: 0 <= i < |a| ==> ToLower(a[i]) == ToLower(b[i])
    ensures CanonicalKey(a) == CanonicalKey(b)
  {
    forall i | 0 <= i < |a|
      ensures CanonicalAt(a, i) == CanonicalAt(b, i)
    {
      SameLowerCase(a[i], b[i]);
      if i > 0 {
        SameLowerCase(a[i - 1], b[i - 1]);
      }
    }
  }

  /**
   * A header map as http.Header holds it: each key maps to its list of
   * values.
   */
  type Header = map<string, seq<string>>

  /** Every key of the map is in canonical form, as in the maps net/http builds. */
  predicate CanonicalKeys(h: Header) {
    forall k :: k in h ==> CanonicalKey(k) == k
  }

  /** http.Header.Values: the values stored under the canonical form of key. */
  function Get(h: Header, key: string): seq<string> {
    if CanonicalKey(key) in h then h[CanonicalKey(key)] else []
  }

  /** True when key is present in both maps with the same values, or in neither. */
  predicate SameAt(h: Header, h': Header, key: string) {
    (key in h <==> key in h') && (key in h ==> h[key] == h'[key])
  }

  /**
   * http.Header.Set: the canonical form of the key ends up with exactly the
   * one value, whatever spelling of it was there before, so every spelling
   * with that canonical form reads back the value; every other entry stays,
   * and a map of canonical keys stays one.
   */
  function Set(h: Header, key: string, value: string): (r: Header)
    ensures Get(r, key) == [value]
    ensures forall k :: k != CanonicalKey(key) ==> SameAt(h, r, k)
    ensures CanonicalKeys(h) ==> CanonicalKeys(r)
    ensures r.Keys == h.Keys + {CanonicalKey(key)}
  {
    CanonicalKeyIdempotent(key);
    h[CanonicalKey(key) := [value]]
  }

  /** True when key (in any spelling with the same canonical form) has the single value v. */
  predicate HasSingle(h: Header, key: string, v: string) {
    Get(h, key) == [v]
  }

  /** One header field to write: a key as the caller spells it, and its value. */
  datatype Field = Field(key: string, value: string)

  /** The stored (canonical) keys a list of fields writes. */
  function FieldKeys(fields: seq<Field>): set<string> {
    set f | f in fields :: CanonicalKey(f.key)
  }

  /**
   * Header.Set applied to each field in order. Only the keys the fields
   * write can change, and a map of canonical keys stays one.
   */
  function SetAll(h: Header, fields: seq<Field>): (r: Header)
    ensures forall k :: k !in FieldKeys(fields) ==> SameAt(h, r, k)
    ensures r.Keys == h.Keys + FieldKeys(fields)
    ensures CanonicalKeys(h) ==> CanonicalKeys(r)
    decreases |fields|
  {
    if fields == [] then h
    else
      var last := fields[|fields| - 1];
      FieldKeysSnoc(fields[..|fields| - 1], last);
      assert fields == fields[..|fields| - 1] + [last];
      Set(SetAll(h, fields[..|fields| - 1]), last.key, last.value)
  }

  /** One more field adds its stored key. */
  lemma FieldKeysSnoc(fields: seq<Field>, f: Field)
    ensures FieldKeys(fields + [f]) == FieldKeys(fields) + {CanonicalKey(f.key)}
  {
  }

  /**
   * A field that no later field overwrites (no later field has the same
   * stored key) reads back its value after the whole list is written.
   */
  lemma {:induction false} SetAllReads(h: Header, fields: seq<Field>, i: nat)
    requires i < |fields|
    requires forall j :: i < j < |fields| ==> CanonicalKey(fields[j].key) != CanonicalKey(fields[i].key)
    ensures HasSingle(SetAll(h, fields), fields[i].key, fields[i].value)
    decreases |fields|
  {
    var init := fields[..|fields| - 1];
    if i < |init| {
      assert init[i] == fields[i];
      SetAllReads(h, init, i);
      assert SameAt(SetAll(h, init), SetAll(h, fields), CanonicalKey(fields[i].key));
    }
  }

  /** No two fields of the list have the same stored key. */
  predicate DistinctKeys(fields: seq<Field>) {
    forall i, j :: 0 <= i < j < |fields| ==> CanonicalKey(fields[i].key) != CanonicalKey(fields[j].key)
  }

  /** A prefix of a list with distinct stored keys has distinct stored keys. */
  lemma DistinctKeysPrefix(a: seq<Field>, b: seq<Field>)
    requires DistinctKeys(a + b)
    ensures DistinctKeys(a)
  {
    forall i, j | 0 <= i < j < |a|
      ensures CanonicalKey(a[i].key) != CanonicalKey(a[j].key)
    {
      assert (a + b)[i] == a[i] && (a + b)[j] == a[j];
    }
  }

  /** In a list with distinct stored keys, the last field's key is not written by the ones before it. */
  lemma DistinctKeysLast(a: seq<Field>, f: Field)
    requires DistinctKeys(a + [f])
    ensures CanonicalKey(f.key) !in FieldKeys(a)
  {
    forall g | g in a
      ensures CanonicalKey(g.key) != CanonicalKey(f.key)
    {
      var i :| 0 <= i < |a| && a[i] == g;
      assert (a + [f])[i] == g && (a + [f])[|a|] == f;
    }
  }

  /**
   * A field whose key is written by no field before it, appended or not to
   * a list, leaves its key in a map that lacked it exactly when appended.
   */
  lemma LastFieldPresentIff(h: Header, a: seq<Field>, f: Field, appended: bool)
    requires DistinctKeys(a + [f]) && CanonicalKey(f.key) !in h
    ensures CanonicalKey(f.key) in SetAll(h, a + (if appended then [f] else [])) <==> appended
  {
    DistinctKeysLast(a, f);
    if appended {
      assert f in a + [f];
    } else {
      assert a + [] == a;
    }
  }

  /** Fields whose keys are pairwise apart have distinct stored keys. */
  lemma ApartFieldsDistinct(fields: seq<Field>)
    requires forall i, j :: 0 <= i < j < |fields| ==> Apart(fields[i].key, fields[j].key)
    ensures DistinctKeys(fields)
  {
    forall i, j | 0 <= i < j < |fields|
      ensures CanonicalKey(fields[i].key) != CanonicalKey(fields[j].key)
    {
      ApartKeysDiffer(fields[i].key, fields[j].key);
    }
  }

  /** A key apart from every field's key is not written by the list. */
  lemma ApartKeyNotWritten(fields: seq<Field>, key: string)
    requires forall i :: 0 <= i < |fields| ==> Apart(fields[i].key, key)
    ensures CanonicalKey(key) !in FieldKeys(fields)
  {
    forall f | f in fields
      ensures CanonicalKey(f.key) != CanonicalKey(key)
    {
      var i :| 0 <= i < |fields| && fields[i] == f;
      ApartKeysDiffer(f.key, key);
    }
  }

  /** When no two fields share a stored key, every field reads back its value. */
  lemma SetAllReadsEach(h: Header, fields: seq<Field>)
    requires DistinctKeys(fields)
    ensures forall f :: f in fields ==> HasSingle(SetAll(h, fields), f.key, f.value)
  {
    forall f | f in fields
      ensures HasSingle(SetAll(h, fields), f.key, f.value)
    {
      var i :| 0 <= i < |fields| && fields[i] == f;
      SetAllReads(h, fields, i);
    }
  }

  /** Writing the same list over two maps gives the same entry at every key the list writes. */
  lemma {:induction false} SetAllAgrees(h1: Header, h2: Header, fields: seq<Field>, k: string)
    requires k in FieldKeys(fields)
    ensures SameAt(SetAll(h1, fields), SetAll(h2, fields), k)
    decreases |fields|
  {
    var init := fields[..|fields| - 1];
    var last := fields[|fields| - 1];
    assert fields == init + [last];
    if k != CanonicalKey(last.key) {
      SetAllAgrees(h1, h2, init, k);
    }
  }

  /** Writing a list of fields a second time changes nothing. */
  lemma SetAllIdempotent(h: Header, fields: seq<Field>)
    ensures SetAll(SetAll(h, fields), fields) == SetAll(h, fields)
  {
    var once := SetAll(h, fields);
    var twice := SetAll(once, fields);
    forall k | k in FieldKeys(fields)
      ensures SameAt(twice, once, k)
    {
      SetAllAgrees(once, h, fields, k);
    }
    assert twice.Keys == once.Keys;
    forall k | k in once
      ensures twice[k] == once[k]
    {
      assert SameAt(twice, once, k);
    }
  }

  /** Writing one more field is one more Header.Set. */
  lemma SetAllSnoc(h: Header, fields: seq<Field>, f: Field)
    ensures SetAll(h, fields + [f]) == Set(SetAll(h, fields), f.key, f.value)
  {
    assert (fields + [f])[..|fields|] == fields;
  }

  /** Writing a list in two parts is writing the first part and then the second. */
  lemma {:induction false} SetAllAppend(h: Header, a: seq<Field>, b: seq<Field>)
    ensures SetAll(h, a + b) == SetAll(SetAll(h, a), b)
    decreases |b|
  {
    if b == [] {
      assert a + b == a;
    } else {
      assert (a + b)[..|a + b| - 1] == a + b[..|b| - 1];
      SetAllAppend(h, a, b[..|b| - 1]);
    }
  }

  /** The header that carries the per-request correlation identifier. */
  const XRequestIdHeader: string := "X-REQUEST-ID"

  /** The server instance identifier, at its initial value. */
  const ServerId: string := "unknown"
}
