/**
  The "Authorization" header format both HTTP middlewares accept: the header
  split on single spaces must give exactly two pieces, the first "Bearer".
*/
module BearerHeader {
  import opened Wrappers
  import opened GoStrings

  const Scheme: string := "Bearer"

  /**
    `strings.Split(header, " ")` with the length and scheme check: the token
    when the header has the accepted form, `None` otherwise.
  */
  function BearerToken(header: string): (t: Option<string>)
    ensures t.Some? ==> ' ' !in t.value
  {
    var parts := Split(header, ' ');
    if |parts| != 2 || parts[0] != Scheme then None else Some(parts[1])
  }

  /**
    The accepted headers are exactly "Bearer " followed by a token with no
    space in it; so a second space ("Bearer  x"), a trailing part or another
    scheme spelling is refused. The token may be empty.
  */
  lemma BearerTokenExactly(header: string, token: string)
    ensures BearerToken(header) == Some(token) <==> header == Scheme + " " + token && ' ' !in token
  {
    assert ' ' !in Scheme by {
      forall i | 0 <= i < |Scheme| ensures Scheme[i] != ' ' {}
    }
    if BearerToken(header) == Some(token) {
      var parts := Split(header, ' ');
      assert parts == [Scheme, token];
      assert Join(parts, ' ') == Scheme + [' '] + token;
    }
    if header == Scheme + " " + token && ' ' !in token {
      assert header == Scheme + [' '] + token;
      SplitAfterFirst(Scheme, token, ' ');
      SplitNoSep(token, ' ');
    }
  }
}
