/**
 * The vocabulary shared by the Jenkins client: request-options objects as the
 * `request` library reads them, the `_.extend` merge that every call performs on
 * them, `Array.prototype.join` for building URLs and paths, transport replies,
 * and the three ways a promise can end up.
 */
module Requests {

  /** A value stored under one key of a request-options object: a plain string
      (`url`, `method`, `body`) or a nested string dictionary (`qs`, `headers`, `auth`). */
  datatype OptionValue = Text(text: string) | Fields(fields: map<string, string>)

  /** A request-options object: key -> value. */
  type Options = map<string, OptionValue>

  /** `_.extend(target, source)`: every key of `source` is copied over `target`;
      every other key of `target` is left as it was. */
  function Extend(target: Options, source: Options): (r: Options)
    ensures r.Keys == target.Keys + source.Keys
    ensures forall k :: k in source ==> r[k] == source[k]
    ensures forall k :: k in target && k !in source ==> r[k] == target[k]
  {
    target + source
  }

  /** Merging a second object whose keys cover the first's makes the first merge invisible. */
  lemma ExtendShadows(o: Options, first: Options, second: Options)
    requires first.Keys <= second.Keys
    ensures Extend(Extend(o, first), second) == Extend(o, second)
  {
    var a, b := Extend(Extend(o, first), second), Extend(o, second);
    assert a.Keys == b.Keys;
    forall k | k in a ensures a[k] == b[k] {
      if k !in second {
        assert k !in first;
      }
    }
  }

  /** `[p0, p1, ...].join(sep)`: the parts with `sep` between neighbours, nothing else. */
  function Join(parts: seq<string>, sep: string): (r: string)
    ensures |parts| == 1 ==> r == parts[0]
    ensures |parts| == 0 ==> r == ""
  {
    if |parts| == 0 then ""
    else if |parts| == 1 then parts[0]
    else parts[0] + sep + Join(parts[1..], sep)
  }

  lemma JoinTwo(a: string, b: string, sep: string)
    ensures Join([a, b], sep) == a + sep + b
  {
    assert [a, b][1..] == [b];
  }

  lemma JoinThree(a: string, b: string, c: string, sep: string)
    ensures Join([a, b, c], sep) == a + sep + b + sep + c
  {
    assert [a, b, c][1..] == [b, c];
    JoinTwo(b, c, sep);
  }

  lemma JoinFour(a: string, b: string, c: string, d: string, sep: string)
    ensures Join([a, b, c, d], sep) == a + sep + b + sep + c + sep + d
  {
    assert [a, b, c, d][1..] == [b, c, d];
    JoinThree(b, c, d, sep);
  }

  /** Appending a part to a non-empty list appends one separator and the part: the join
      of any number of parts is the parts with one separator between neighbours. */
  lemma {:induction false} JoinSnoc(parts: seq<string>, x: string, sep: string)
    requires |parts| > 0
    ensures Join(parts + [x], sep) == Join(parts, sep) + sep + x
  {
    if |parts| == 1 {
      assert parts + [x] == [parts[0], x];
      JoinTwo(parts[0], x, sep);
    } else {
      assert (parts + [x])[1..] == parts[1..] + [x];
      JoinSnoc(parts[1..], x, sep);
    }
  }

  /** The total length of the parts. */
  function SumLengths(parts: seq<string>): (n: nat)
    ensures forall i :: 0 <= i < |parts| ==> |parts[i]| <= n
  {
    if |parts| == 0 then 0 else |parts[0]| + SumLengths(parts[1..])
  }

  /** Joining adds exactly one separator between neighbours and drops nothing:
      no slash is collapsed, added or escaped. */
  lemma {:induction false} JoinLength(parts: seq<string>, sep: string)
    requires |parts| > 0
    ensures |Join(parts, sep)| == SumLengths(parts) + (|parts| - 1) * |sep|
  {
    if |parts| > 1 {
      JoinLength(parts[1..], sep);
      assert (|parts| - 1) * |sep| == (|parts| - 2) * |sep| + |sep|;
    }
  }

  /** What the transport hands to a request callback: an error, or a status code and a body. */
  datatype Response<T> = TransportError | Reply(statusCode: int, body: T)

  /** How a promise ends: resolved with a value, rejected, or never settled. */
  datatype Outcome<T> = Resolved(value: T) | Rejected | Pending

}
