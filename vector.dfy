/**
 * The vector converter (src/Converters/VectorConverter.cs): a Vector2 or Vector3 is shown
 * as its components joined by ", ", and a string is read back by splitting it on commas
 * and spaces. Number formatting ("0.###" in the current culture) and float.TryParse are
 * parameters: `format` and `parse`.
 */
module VectorConverter {
  import opened Wrappers
  import opened Values

  /** The separators ConvertBack splits on. */
  predicate IsSep(c: char) {
    c == ',' || c == ' '
  }

  /** A string with no separator in it. */
  predicate NoSep(t: string) {
    forall i :: 0 <= i < |t| ==> !IsSep(t[i])
  }

  /** The token being read, if any, as a list of zero or one tokens. */
  function Flush(cur: string): (ts: seq<string>)
    ensures |ts| <= 1 && (ts == [] <==> cur == [])
  {
    if cur == [] then [] else [cur]
  }

  /**
   * Splitting `s` on ',' and ' ' with RemoveEmptyEntries, `cur` being the token read so far:
   * the maximal runs of non-separators, in order.
   */
  function TokensFrom(s: string, cur: string): (ts: seq<string>)
    requires NoSep(cur)
    ensures forall k :: 0 <= k < |ts| ==> ts[k] != [] && NoSep(ts[k])
    decreases |s|
  {
    if s == [] then Flush(cur)
    else if IsSep(s[0]) then Flush(cur) + TokensFrom(s[1..], [])
    else TokensFrom(s[1..], cur + [s[0]])
  }

  /** `s.Split(new[] { ',', ' ' }, StringSplitOptions.RemoveEmptyEntries)`. */
  function Tokens(s: string): (ts: seq<string>)
    ensures forall k :: 0 <= k < |ts| ==> ts[k] != [] && NoSep(ts[k])
  {
    TokensFrom(s, [])
  }

  /** The components joined by ", ", as the interpolated strings of Convert write them. */
  function Join(ts: seq<string>): string {
    if |ts| <= 1 then (if ts == [] then "" else ts[0])
    else ts[0] + ", " + Join(ts[1..])
  }

  lemma JoinPair(a: string, b: string)
    ensures Join([a, b]) == a + ", " + b
  {
    assert [a, b][1..] == [b];
  }

  lemma JoinTriple(a: string, b: string, c: string)
    ensures Join([a, b, c]) == a + ", " + b + ", " + c
  {
    assert [a, b, c][1..] == [b, c];
    JoinPair(b, c);
    assert a + ", " + (b + ", " + c) == a + ", " + b + ", " + c;
  }

  /** Convert: a Vector2 becomes "x, y", a Vector3 "x, y, z"; any other value gives UnsetValue. */
  function Convert(value: Value, format: Float32 -> string): (r: Value)
    ensures value.Vector2? ==> r == Str(Join([format(value.x), format(value.y)]))
    ensures value.Vector3? ==> r == Str(Join([format(value.x), format(value.y), format(value.z)]))
    ensures !value.Vector2? && !value.Vector3? ==> r == Unset
  {
    match value
    case Vector2(x, y) =>
      JoinPair(format(x), format(y));
      Str(format(x) + ", " + format(y))
    case Vector3(x, y, z) =>
      JoinTriple(format(x), format(y), format(z));
      Str(format(x) + ", " + format(y) + ", " + format(z))
    case _ => Unset
  }

  /**
   * ConvertBack: a string splitting into 2 or 3 tokens whose first two parse gives a
   * Vector3 when a third token is there and parses, and a Vector2 of the first two
   * otherwise; anything else gives UnsetValue.
   */
  function ConvertBack(value: Value, parse: string -> Nullable<Float32>): (r: Value)
    ensures r.Vector2? || r.Vector3? || r == Unset
    ensures !value.Str? ==> r == Unset
    ensures value.Str? && !(1 < |Tokens(value.s)| < 4) ==> r == Unset
    ensures value.Str? && 1 < |Tokens(value.s)| < 4 ==>
      var ts := Tokens(value.s);
      if parse(ts[0]).Null? || parse(ts[1]).Null? then r == Unset
      else if |ts| == 3 && parse(ts[2]).Some? then r == Vector3(parse(ts[0]).value, parse(ts[1]).value, parse(ts[2]).value)
      else r == Vector2(parse(ts[0]).value, parse(ts[1]).value)
  {
    if !value.Str? then Unset
    else
      var comp := Tokens(value.s);
      if 1 < |comp| < 4 then
        var x, y := parse(comp[0]), parse(comp[1]);
        var z := if |comp| == 3 then parse(comp[2]) else Null;
        if x.Some? && y.Some? then
          if z.Some? then Vector3(x.value, y.value, z.value) else Vector2(x.value, y.value)
        else Unset
      else Unset
  }

  /** Reading a separator-free run `t` extends the current token by it. */
  lemma {:induction false} ReadRun(t: string, rest: string, cur: string)
    requires NoSep(cur) && NoSep(t)
    ensures NoSep(cur + t)
    ensures TokensFrom(t + rest, cur) == TokensFrom(rest, cur + t)
    decreases |t|
  {
    if t == [] {
      assert t + rest == rest;
      assert cur + t == cur;
    } else {
      assert (t + rest)[0] == t[0];
      assert (t + rest)[1..] == t[1..] + rest;
      assert cur + t == (cur + [t[0]]) + t[1..];
      ReadRun(t[1..], rest, cur + [t[0]]);
    }
  }

  /** The ", " between two components ends the current token and starts none. */
  lemma ReadSeparator(rest: string, cur: string)
    requires cur != [] && NoSep(cur)
    ensures TokensFrom(", " + rest, cur) == [cur] + TokensFrom(rest, [])
  {
    assert (", " + rest)[1..] == " " + rest;
    assert (" " + rest)[1..] == rest;
  }

  /** Splitting the joined tokens gives the tokens back, when none is empty or holds a separator. */
  lemma {:induction false} TokensOfJoin(ts: seq<string>)
    requires forall k :: 0 <= k < |ts| ==> ts[k] != [] && NoSep(ts[k])
    ensures Tokens(Join(ts)) == ts
    decreases |ts|
  {
    if ts == [] {
    } else if |ts| == 1 {
      ReadRun(ts[0], [], []);
      assert ts[0] + [] == ts[0];
      assert [] + ts[0] == ts[0];
    } else {
      var rest := Join(ts[1..]);
      assert Join(ts) == ts[0] + (", " + rest);
      ReadRun(ts[0], ", " + rest, []);
      assert [] + ts[0] == ts[0];
      ReadSeparator(rest, ts[0]);
      TokensOfJoin(ts[1..]);
      assert ts == [ts[0]] + ts[1..];
    }
  }

  /** A component whose formatted text is one clean token that parses back. */
  predicate CleanComponent(x: Float32, format: Float32 -> string, parse: string -> Nullable<Float32>) {
    format(x) != [] && NoSep(format(x)) && parse(format(x)).Some?
  }

  /**
   * Round trip: when each of v's formatted components is non-empty, free of ',' and ' '
   * and parses back, ConvertBack(Convert(v)) is v with each component replaced by the
   * value its formatted text parses to (the "0.###" format keeps three decimals).
   */
  lemma {:induction false} RoundTrip(v: Value, format: Float32 -> string, parse: string -> Nullable<Float32>)
    requires v.Vector2? || v.Vector3?
    requires CleanComponent(v.x, format, parse) && CleanComponent(v.y, format, parse)
    requires v.Vector3? ==> CleanComponent(v.z, format, parse)
    ensures v.Vector2? ==>
      ConvertBack(Convert(v, format), parse) == Vector2(parse(format(v.x)).value, parse(format(v.y)).value)
    ensures v.Vector3? ==>
      ConvertBack(Convert(v, format), parse)
        == Vector3(parse(format(v.x)).value, parse(format(v.y)).value, parse(format(v.z)).value)
  {
    if v.Vector2? {
      TokensOfJoin([format(v.x), format(v.y)]);
    } else {
      TokensOfJoin([format(v.x), format(v.y), format(v.z)]);
    }
  }

  /** A third token that does not parse is dropped: the string still reads as a Vector2. */
  lemma BadThirdComponent(x: string, y: string, z: string, parse: string -> Nullable<Float32>)
    requires x != [] && NoSep(x) && y != [] && NoSep(y) && z != [] && NoSep(z)
    requires parse(x).Some? && parse(y).Some? && parse(z).Null?
    ensures ConvertBack(Str(Join([x, y, z])), parse) == Vector2(parse(x).value, parse(y).value)
  {
    TokensOfJoin([x, y, z]);
  }
}
