/** `URLSearchParams.get` on a query string: `&`-separated pairs, each split
    at its first `=`. */
module Query {
  import opened Wrappers
  import opened Strings

  /** The name of a `name=value` pair: the text before its first `=`. */
  function PairName(pair: string): string {
    Split(pair, '=')[0]
  }

  /** The value of a pair: the text after its first `=`, or `""` without one. */
  function PairValue(pair: string): string {
    var pieces := Split(pair, '=');
    if |pieces| == 1 then "" else Join(pieces[1..], '=')
  }

  /** A pair written as `name=value` reads back as that name and value,
      whatever `=` the value holds. */
  lemma {:induction false} PairOf(name: string, value: string)
    requires '=' !in name
    ensures PairName(name + "=" + value) == name
    ensures PairValue(name + "=" + value) == value
  {
    var rest := Split(value, '=');
    JoinCons(name, rest, '=');
    SplitJoin([name] + rest, '=');
    assert ([name] + rest)[1..] == rest;
  }

  /** An empty piece (`a&&b`) is no pair at all. */
  predicate Names(pair: string, name: string) {
    pair != "" && PairName(pair) == name
  }

  /** The value of the first pair named `name`. */
  function FirstValue(pairs: seq<string>, name: string): (r: Option<string>)
    ensures r.None? <==> forall i :: 0 <= i < |pairs| ==> !Names(pairs[i], name)
    ensures r.Some? ==> exists i :: 0 <= i < |pairs| && Names(pairs[i], name) && PairValue(pairs[i]) == r.value &&
                                   (forall j :: 0 <= j < i ==> !Names(pairs[j], name))
    decreases |pairs|
  {
    if |pairs| == 0 then None
    else if Names(pairs[0], name) then Some(PairValue(pairs[0]))
    else
      var r := FirstValue(pairs[1..], name);
      if r.Some? then
        var i :| 0 <= i < |pairs[1..]| && Names(pairs[1..][i], name) && PairValue(pairs[1..][i]) == r.value &&
          forall j :: 0 <= j < i ==> !Names(pairs[1..][j], name);
        assert forall j :: 0 <= j < i + 1 ==> !Names(pairs[j], name) by {
          forall j | 0 <= j < i + 1 ensures !Names(pairs[j], name) {
            if j > 0 { assert pairs[j] == pairs[1..][j - 1]; }
          }
        }
        r
      else
        assert forall i :: 1 <= i < |pairs| ==> pairs[i] == pairs[1..][i - 1];
        r
  }

  /** `new URLSearchParams(query).get(name)`: a leading `?` is dropped, then
      the first pair with that name gives the value. */
  function GetParam(query: string, name: string): Option<string> {
    var q := if |query| > 0 && query[0] == '?' then query[1..] else query;
    FirstValue(Split(q, '&'), name)
  }

  /** A query of a single pair gives that pair's value for its name, when
      neither holds a `%` or `+` that `URLSearchParams` would decode. */
  lemma SinglePair(name: string, value: string)
    requires name != [] && name[0] != '?' && '=' !in name && '&' !in name && '&' !in value
    requires '%' !in name && '+' !in name && '%' !in value && '+' !in value
    ensures GetParam(name + "=" + value, name) == Some(value)
  {
    var q := name + "=" + value;
    assert q[0] == name[0];
    assert '&' !in q by {
      assert forall ch :: ch in q ==> ch in name || ch == '=' || ch in value;
    }
    SplitJoin([q], '&');
    PairOf(name, value);
  }
}
