/**
 * Query strings as `URLSearchParams` builds them: an ordered list of
 * name/value pairs, written `name=value` and joined with `&`.
 * Percent-encoding is not modelled (see README).
 */
module Query {

  type Param = (string, string)

  /** One `name=value` field. */
  function Field(p: Param): string {
    p.0 + "=" + p.1
  }

  /** `params.toString()`: the fields in insertion order, joined with `&`; no pairs gives "". */
  function Serialize(ps: seq<Param>): string
    decreases |ps|
  {
    if |ps| == 0 then ""
    else if |ps| == 1 then Field(ps[0])
    else Field(ps[0]) + "&" + Serialize(ps[1..])
  }

  /** `URLSearchParams` holding its pairs in the order they were appended. */
  class SearchParams {
    var pairs: seq<Param>

    constructor ()
      ensures pairs == []
    {
      pairs := [];
    }

    /** `params.append(name, value)`: adds a pair at the end, never replacing an earlier one. */
    method Append(name: string, value: string)
      modifies this
      ensures pairs == old(pairs) + [(name, value)]
    {
      pairs := pairs + [(name, value)];
    }

    function ToString(): string
      reads this
    {
      Serialize(pairs)
    }
  }

  // ---------------------------------------------------------------------------
  // Reference reading of a query string (what the backend parses), used to
  // state that the serialisation carries exactly the appended pairs.

  /** Position of the first `c` in `s`, or `|s|` when there is none. */
  function IndexOf(s: string, c: char): (i: nat)
    ensures i <= |s|
    ensures i < |s| ==> s[i] == c
    ensures forall j :: 0 <= j < i ==> s[j] != c
    decreases |s|
  {
    if |s| == 0 then 0 else if s[0] == c then 0 else 1 + IndexOf(s[1..], c)
  }

  function Split(s: string, c: char): (parts: seq<string>)
    ensures |parts| > 0
    decreases |s|
  {
    var i := IndexOf(s, c);
    if i == |s| then [s] else [s[..i]] + Split(s[i + 1..], c)
  }

  function ParseField(f: string): Param {
    var i := IndexOf(f, '=');
    if i == |f| then (f, "") else (f[..i], f[i + 1..])
  }

  function ParseFields(fs: seq<string>): (ps: seq<Param>)
    ensures |ps| == |fs|
    decreases |fs|
  {
    if fs == [] then [] else [ParseField(fs[0])] + ParseFields(fs[1..])
  }

  function Parse(s: string): seq<Param> {
    if s == "" then [] else ParseFields(Split(s, '&'))
  }

  /** A pair that survives serialisation without encoding. */
  predicate Plain(p: Param) {
    '&' !in p.0 && '=' !in p.0 && '&' !in p.1
  }

  lemma ParseFieldOfField(p: Param)
    requires Plain(p)
    ensures ParseField(Field(p)) == p
  {
    var f := Field(p);
    var i := IndexOf(f, '=');
    assert f[|p.0|] == '=';
    assert i == |p.0|;
    assert f[..i] == p.0;
    assert f[i + 1..] == p.1;
  }

  function Fields(ps: seq<Param>): (fs: seq<string>)
    ensures |fs| == |ps|
    decreases |ps|
  {
    if ps == [] then [] else [Field(ps[0])] + Fields(ps[1..])
  }

  lemma {:induction false} SplitSerialize(ps: seq<Param>)
    requires |ps| > 0
    requires forall k :: 0 <= k < |ps| ==> Plain(ps[k])
    ensures Split(Serialize(ps), '&') == Fields(ps)
    decreases |ps|
  {
    var f := Field(ps[0]);
    assert Plain(ps[0]);
    assert '&' !in f;
    if |ps| == 1 {
      assert Serialize(ps) == f;
      assert IndexOf(f, '&') == |f|;
    } else {
      var rest := Serialize(ps[1..]);
      var s := f + "&" + rest;
      assert Serialize(ps) == s;
      var i := IndexOf(s, '&');
      assert s[|f|] == '&';
      assert i == |f|;
      assert s[..i] == f;
      assert s[i + 1..] == rest;
      SplitSerialize(ps[1..]);
    }
  }

  lemma {:induction false} ParseFieldsOfFields(ps: seq<Param>)
    requires forall k :: 0 <= k < |ps| ==> Plain(ps[k])
    ensures ParseFields(Fields(ps)) == ps
    decreases |ps|
  {
    if ps != [] {
      ParseFieldOfField(ps[0]);
      ParseFieldsOfFields(ps[1..]);
    }
  }

  /** The query string carries exactly the appended pairs, in order. */
  lemma ParseSerialize(ps: seq<Param>)
    requires forall k :: 0 <= k < |ps| ==> Plain(ps[k])
    ensures Parse(Serialize(ps)) == ps
  {
    if ps != [] {
      assert '=' in Field(ps[0]);
      assert Serialize(ps) != "";
      SplitSerialize(ps);
      ParseFieldsOfFields(ps);
    }
  }
}
