/** Query strings as `URLSearchParams` produces them. The percent-encoders
    and the rendering of a floating-point number are library code, passed in
    as functions. */
module Url {
  import opened JsStrings

  /** Library conversions used when building URLs:
      `formEncode` is the application/x-www-form-urlencoded byte serializer
      `URLSearchParams` applies to each name and value, `uriComponent` is
      `encodeURIComponent`, and `numberToString` is `String(x)` for a
      number, integral or not; the model leaves its output, "0" and "1"
      included, to the function. */
  datatype Codecs = Codecs(
    formEncode: string -> string,
    uriComponent: string -> string,
    numberToString: real -> string)

  /** One name/value pair of a query, before encoding. */
  type Param = (string, string)

  /** The `name=value` text of one encoded pair. */
  function Pair(p: Param, enc: string -> string): string {
    enc(p.0) + "=" + enc(p.1)
  }

  /** `new URLSearchParams(ps).toString()`: the encoded pairs in order,
      separated by `&`. */
  function Serialize(ps: seq<Param>, enc: string -> string): (r: string)
    ensures |ps| == 0 ==> r == ""
  {
    Join(seq(|ps|, i requires 0 <= i < |ps| => Pair(ps[i], enc)), '&')
  }

  /** An encoder that never emits the query delimiters `&` and `=`, as the
      form-urlencoded serializer does not. */
  ghost predicate Delimits(enc: string -> string) {
    forall s :: '&' !in enc(s) && '=' !in enc(s)
  }

  lemma PairSplits(p: Param, enc: string -> string)
    requires Delimits(enc)
    ensures '&' !in Pair(p, enc)
    ensures Split(Pair(p, enc), '=') == [enc(p.0), enc(p.1)]
  {
    var a, b := enc(p.0), enc(p.1);
    assert '=' !in a && '=' !in b;
    assert '&' !in a && '&' !in b;
    SplitJoin([a, b], '=');
    assert Join([a, b], '=') == a + ['='] + b;
  }

  /** A reader that splits the serialized query on `&` and each piece on
      `=` recovers every encoded name and value, in order. */
  lemma SerializeSplits(ps: seq<Param>, enc: string -> string)
    requires |ps| >= 1
    requires Delimits(enc)
    ensures |Split(Serialize(ps, enc), '&')| == |ps|
    ensures forall i :: 0 <= i < |ps| ==>
      Split(Split(Serialize(ps, enc), '&')[i], '=') == [enc(ps[i].0), enc(ps[i].1)]
  {
    var pairs := seq(|ps|, i requires 0 <= i < |ps| => Pair(ps[i], enc));
    forall i | 0 <= i < |ps| ensures '&' !in pairs[i] && Split(pairs[i], '=') == [enc(ps[i].0), enc(ps[i].1)] {
      PairSplits(ps[i], enc);
    }
    SplitJoin(pairs, '&');
  }
}
