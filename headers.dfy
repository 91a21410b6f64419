/** The Authorization header: the client writes `Bearer <token>` and the
    server reads `header.split(" ")[1]`. */
module Headers {
  import opened Values

  /** `s.split(" ")`: the fields between single spaces; never empty, and two
      adjacent spaces give an empty field. */
  function Split(s: string): (parts: seq<string>)
    ensures |parts| >= 1
    decreases |s|
  {
    if s == [] then [""]
    else
      var rest := Split(s[1..]);
      if s[0] == ' ' then [""] + rest else [[s[0]] + rest[0]] + rest[1..]
  }

  /** `parts.join(" ")`. */
  function Join(parts: seq<string>): string
  {
    if |parts| <= 1 then (if parts == [] then "" else parts[0])
    else parts[0] + " " + Join(parts[1..])
  }

  /** `header.split(" ")[1]`: the second field, `undefined` when there is none. */
  function BearerToken(header: string): Option<string>
  {
    var parts := Split(header);
    if |parts| > 1 then Some(parts[1]) else None
  }

  /** The header the client's request interceptor builds. */
  function BearerHeader(token: string): string
  {
    "Bearer " + token
  }

  /** Splitting loses nothing: no field contains a space, and joining the
      fields with spaces gives the header back. */
  lemma {:induction false} SplitJoin(s: string)
    ensures Join(Split(s)) == s
    ensures forall i :: 0 <= i < |Split(s)| ==> ' ' !in Split(s)[i]
    decreases |s|
  {
    if s != [] {
      SplitJoin(s[1..]);
      var rest := Split(s[1..]);
      if s[0] == ' ' {
        assert Split(s) == [""] + rest;
        assert Join(Split(s)) == "" + " " + Join(rest);
        assert s == [s[0]] + s[1..];
        forall i | 0 <= i < |Split(s)| ensures ' ' !in Split(s)[i] {
          if i > 0 { assert Split(s)[i] == rest[i - 1]; }
        }
      } else {
        var parts := Split(s);
        assert parts == [[s[0]] + rest[0]] + rest[1..];
        if |rest| == 1 {
          assert Join(parts) == [s[0]] + rest[0];
        } else {
          assert parts[1..] == rest[1..];
          assert Join(rest) == rest[0] + " " + Join(rest[1..]);
        }
        assert s == [s[0]] + s[1..];
        forall i | 0 <= i < |parts| ensures ' ' !in parts[i] {
          if i > 0 { assert parts[i] == rest[i]; }
          else { assert ' ' !in rest[0]; }
        }
      }
    }
  }

  /** A word without spaces is a single field. */
  lemma {:induction false} SplitWord(w: string)
    requires ' ' !in w
    ensures Split(w) == [w]
    decreases |w|
  {
    if w != [] {
      assert ' ' !in w[1..];
      SplitWord(w[1..]);
      assert [w[0]] + w[1..] == w;
    }
  }

  /** A leading word and one space split off as the first field. */
  lemma {:induction false} SplitAfterWord(w: string, t: string)
    requires ' ' !in w
    ensures Split(w + " " + t) == [w] + Split(t)
    decreases |w|
  {
    if w == [] {
      assert w + " " + t == [' '] + t;
      assert (w + " " + t)[1..] == t;
    } else {
      assert ' ' !in w[1..];
      SplitAfterWord(w[1..], t);
      assert (w + " " + t)[1..] == w[1..] + " " + t;
      assert [w[0]] + w[1..] == w;
    }
  }

  /** Round trip: the token the client sends is the token the server reads,
      whenever the token has no space in it. */
  lemma BearerRoundTrip(token: string)
    requires ' ' !in token
    ensures BearerToken(BearerHeader(token)) == Some(token)
  {
    SplitAfterWord("Bearer", token);
    SplitWord(token);
    assert BearerHeader(token) == "Bearer" + " " + token;
  }

  /** A header with no space has no token. */
  lemma NoSpaceNoToken(header: string)
    requires ' ' !in header
    ensures BearerToken(header) == None
  {
    SplitWord(header);
  }
}
