/**
 * HTTP header collections as the modelled code uses them: an ordered list of
 * (name, values) entries whose names are compared case-insensitively
 * (field names are case-insensitive, section 5.1 of RFC 9110). Field names are
 * ASCII tokens, so the comparison folds ASCII letters only.
 */
module HeaderCollection {
  import opened Wrappers
  import opened Exceptions

  /** ASCII lower-casing of one character. */
  function FoldChar(c: char): (r: char)
    ensures 'A' <= c <= 'Z' ==> 'a' <= r <= 'z' && r as int == c as int + 32
    ensures !('A' <= c <= 'Z') ==> r == c
  {
    if 'A' <= c <= 'Z' then (c as int + 32) as char else c
  }

  /** ASCII lower-casing of a name, character by character. */
  function Fold(s: string): (r: string)
    ensures |r| == |s|
    ensures forall i :: 0 <= i < |s| ==> r[i] == FoldChar(s[i])
  {
    if s == [] then [] else [FoldChar(s[0])] + Fold(s[1..])
  }

  /** Two header names denote the same field. */
  function SameName(a: string, b: string): (same: bool)
    ensures a == b ==> same
    ensures same ==> |a| == |b|
  {
    Fold(a) == Fold(b)
  }

  /** `StringValues`: the values carried under one name. */
  type StringValues = seq<string>

  /**
   * `StringValues.IsNullOrEmpty`: no value at all, or exactly one value that is
   * empty. Several values count as non-empty even when the first one is "".
   */
  function ValuesNullOrEmpty(v: StringValues): (nullOrEmpty: bool)
    ensures |v| == 0 ==> nullOrEmpty
    ensures |v| >= 2 ==> !nullOrEmpty
    ensures |v| == 1 ==> (nullOrEmpty <==> v[0] == "")
  {
    |v| == 0 || (|v| == 1 && v[0] == "")
  }

  datatype Header = Header(name: string, values: StringValues)

  type Headers = seq<Header>

  /** `ContainsKey` / `Contains`: some entry carries this name. */
  predicate ContainsKey(h: Headers, name: string) {
    exists i :: 0 <= i < |h| && SameName(h[i].name, name)
  }

  /** `TryGetValue`: the values of the first entry carrying this name. */
  function TryGetValue(h: Headers, name: string): (r: Option<StringValues>)
    ensures r.Some? <==> ContainsKey(h, name)
    ensures r.Some? ==> exists i :: 0 <= i < |h| && SameName(h[i].name, name) && h[i].values == r.value &&
                                    forall j :: 0 <= j < i ==> !SameName(h[j].name, name)
  {
    if h == [] then None
    else if SameName(h[0].name, name) then Some(h[0].values)
    else
      var r := TryGetValue(h[1..], name);
      assert r.Some? ==> exists i :: 1 <= i < |h| && SameName(h[i].name, name) && h[i].values == r.value &&
                                     forall j :: 0 <= j < i ==> !SameName(h[j].name, name) by {
        if r.Some? {
          var k :| 0 <= k < |h[1..]| && SameName(h[1..][k].name, name) && h[1..][k].values == r.value &&
                   forall j :: 0 <= j < k ==> !SameName(h[1..][j].name, name);
          assert h[k + 1] == h[1..][k];
          forall j | 0 <= j < k + 1 ensures !SameName(h[j].name, name) {
            if j > 0 { assert h[j] == h[1..][j - 1]; }
          }
        }
      }
      assert ContainsKey(h, name) ==> ContainsKey(h[1..], name) by {
        if ContainsKey(h, name) {
          var k :| 0 <= k < |h| && SameName(h[k].name, name);
          assert k > 0 && h[1..][k - 1] == h[k];
        }
      }
      r
  }

  /** The number of entries carrying this name. */
  function CountKey(h: Headers, name: string): (n: nat)
    ensures n == 0 <==> !ContainsKey(h, name)
    ensures n <= |h|
  {
    if h == [] then 0
    else
      var rest := CountKey(h[1..], name);
      assert ContainsKey(h, name) <==> SameName(h[0].name, name) || ContainsKey(h[1..], name) by {
        if ContainsKey(h[1..], name) {
          var k :| 0 <= k < |h[1..]| && SameName(h[1..][k].name, name);
          assert h[k + 1] == h[1..][k];
        }
        if ContainsKey(h, name) && !SameName(h[0].name, name) {
          var k :| 0 <= k < |h| && SameName(h[k].name, name);
          assert k > 0 && h[1..][k - 1] == h[k];
        }
      }
      (if SameName(h[0].name, name) then 1 else 0) + rest
  }

  /** Adding an entry at the end: the count of its name goes up by one, every other count stays. */
  lemma {:induction false} CountKeyAppend(h: Headers, e: Header, name: string)
    ensures CountKey(h + [e], name) == CountKey(h, name) + (if SameName(e.name, name) then 1 else 0)
    decreases |h|
  {
    if h == [] {
      assert CountKey([e], name) == (if SameName(e.name, name) then 1 else 0) + CountKey([], name);
    } else {
      assert (h + [e])[1..] == h[1..] + [e];
      CountKeyAppend(h[1..], e, name);
    }
  }

  /** Looking up a name after an entry is added at the end: an earlier entry still wins. */
  lemma {:induction false} TryGetValueAppend(h: Headers, e: Header, name: string)
    ensures TryGetValue(h + [e], name) ==
            if ContainsKey(h, name) then TryGetValue(h, name)
            else if SameName(e.name, name) then Some(e.values)
            else None
    decreases |h|
  {
    if h != [] {
      assert (h + [e])[1..] == h[1..] + [e];
      TryGetValueAppend(h[1..], e, name);
    }
  }

  /**
   * `IHeaderDictionary.Add`: a response header dictionary holds each name once;
   * adding a name it already holds throws.
   */
  function AddUnique(h: Headers, name: string, value: string): (r: Result<Headers, Exception>)
    ensures r.Failure? <==> ContainsKey(h, name)
    ensures r.Failure? ==> r.error == DuplicateHeader(name)
    ensures r.Success? ==> r.value == h + [Header(name, [value])]
  {
    if ContainsKey(h, name) then Failure(DuplicateHeader(name)) else Success(h + [Header(name, [value])])
  }
}
