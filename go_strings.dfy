/**
  The parts of Go's `strings` and `strconv` packages that the services use,
  written out over `string` (a sequence of `char`). Separators are single
  characters, which covers every call in the services ("." , "/" and " ").
*/
module GoStrings {
  import opened Wrappers

  /** Position of the first occurrence of `c` in `s`. */
  function IndexOf(s: string, c: char): (i: nat)
    requires c in s
    ensures i < |s| && s[i] == c && c !in s[..i]
  {
    if s[0] == c then 0 else 1 + IndexOf(s[1..], c)
  }

  /** `strings.Join(parts, string(sep))`. */
  function Join(parts: seq<string>, sep: char): string
  {
    if |parts| == 0 then ""
    else if |parts| == 1 then parts[0]
    else parts[0] + [sep] + Join(parts[1..], sep)
  }

  /**
    `strings.Split(s, string(sep))`: the pieces of `s` between occurrences of
    `sep`. There is always at least one piece (the empty string splits to
    `[""]`), no piece contains `sep`, and joining the pieces gives `s` back.
  */
  function Split(s: string, sep: char): (parts: seq<string>)
    ensures |parts| >= 1
    ensures forall i :: 0 <= i < |parts| ==> sep !in parts[i]
    ensures Join(parts, sep) == s
    decreases |s|
  {
    if sep !in s then [s]
    else
      var i := IndexOf(s, sep);
      var rest := Split(s[i + 1..], sep);
      assert s == s[..i] + [sep] + s[i + 1..];
      [s[..i]] + rest
  }

  /** Joining a head piece onto at least one more piece puts a separator between them. */
  lemma JoinCons(head: string, rest: seq<string>, sep: char)
    requires |rest| >= 1
    ensures Join([head] + rest, sep) == head + [sep] + Join(rest, sep)
  {
    assert ([head] + rest)[1..] == rest;
  }

  /**
    The pieces are determined by the two facts `Split` promises: any non-empty
    list of separator-free pieces that joins to `s` IS `Split(s, sep)`.
  */
  lemma {:induction false} SplitUnique(s: string, sep: char, parts: seq<string>)
    requires |parts| >= 1
    requires forall i :: 0 <= i < |parts| ==> sep !in parts[i]
    requires Join(parts, sep) == s
    ensures parts == Split(s, sep)
    decreases |s|
  {
    if |parts| == 1 {
      assert s == parts[0];
    } else {
      var rest := parts[1..];
      JoinCons(parts[0], rest, sep);
      var t := Join(rest, sep);
      assert s == parts[0] + [sep] + t;
      assert s[|parts[0]|] == sep;
      assert sep in s;
      var i := IndexOf(s, sep);
      assert s[..|parts[0]|] == parts[0];
      assert i == |parts[0]|;
      assert s[i + 1..] == t;
      forall k | 0 <= k < |rest| ensures sep !in rest[k] {
        assert rest[k] == parts[k + 1];
      }
      SplitUnique(t, sep, rest);
      assert parts == [parts[0]] + rest;
    }
  }

  /** A string without the separator is a single piece. */
  lemma SplitNoSep(s: string, sep: char)
    requires sep !in s
    ensures Split(s, sep) == [s]
  {
  }

  /** Splitting `a + [sep] + b` where `a` has no separator: `a` is the first piece, the rest come from `b`. */
  lemma SplitAfterFirst(a: string, b: string, sep: char)
    requires sep !in a
    ensures Split(a + [sep] + b, sep) == [a] + Split(b, sep)
  {
    var parts := [a] + Split(b, sep);
    JoinCons(a, Split(b, sep), sep);
    forall k | 0 <= k < |parts| ensures sep !in parts[k] {
      if k > 0 { assert parts[k] == Split(b, sep)[k - 1]; }
    }
    SplitUnique(a + [sep] + b, sep, parts);
  }

  /**
    The first piece of `p + s`, when the prefix `p` holds no separator, is
    `p` followed by the first piece of `s`: a separator-free prefix survives
    `strings.Split(..)[0]`.
  */
  lemma {:induction false} FirstPieceKeepsPrefix(p: string, s: string, sep: char)
    requires sep !in p
    ensures Split(p + s, sep)[0] == p + Split(s, sep)[0]
  {
    if sep !in s {
      assert sep !in p + s;
    } else {
      var i := IndexOf(s, sep);
      var b := s[i + 1..];
      assert s == s[..i] + [sep] + b;
      assert p + s == (p + s[..i]) + [sep] + b;
      assert sep !in p + s[..i];
      SplitAfterFirst(s[..i], b, sep);
      SplitAfterFirst(p + s[..i], b, sep);
    }
  }

  /**
    Go's `strings.Split(s, sep)[n]`: the `n`-th piece, or `None` where the Go
    expression panics with an index out of range.
  */
  function Piece(s: string, sep: char, n: nat): (r: Option<string>)
    ensures r.Some? <==> n < |Split(s, sep)|
    ensures r.Some? ==> sep !in r.value
  {
    var parts := Split(s, sep);
    if n < |parts| then Some(parts[n]) else None
  }

  /** The second piece exists exactly when the separator occurs. */
  lemma SecondPieceExists(s: string, sep: char)
    ensures Piece(s, sep, 1).Some? <==> sep in s
  {
    if sep in s {
      var i := IndexOf(s, sep);
      assert |Split(s, sep)| == 1 + |Split(s[i + 1..], sep)|;
    }
  }

  /**
    The second piece of `base + [sep] + ext + more`, where neither `base` nor
    `ext` holds a separator and `more` is empty or starts with one, is `ext`.
  */
  lemma SecondPiece(base: string, ext: string, more: string, sep: char)
    requires sep !in base && sep !in ext
    requires more == [] || more[0] == sep
    ensures Piece(base + [sep] + ext + more, sep, 1) == Some(ext)
  {
    assert base + [sep] + ext + more == base + [sep] + (ext + more);
    SplitAfterFirst(base, ext + more, sep);
    SecondPieceRest(ext, more, sep);
  }

  /** The first piece of `ext + more`, with `more` empty or starting with the separator, is `ext`. */
  lemma SecondPieceRest(ext: string, more: string, sep: char)
    requires sep !in ext
    requires more == [] || more[0] == sep
    ensures Split(ext + more, sep)[0] == ext
  {
    if more == [] {
      assert ext + more == ext;
      SplitNoSep(ext, sep);
    } else {
      assert ext + more == ext + [sep] + more[1..];
      SplitAfterFirst(ext, more[1..], sep);
    }
  }

  /** The first piece of `s`: text before the first `sep`, or all of `s`. */
  function Stem(s: string, sep: char): (r: string)
    ensures sep !in r && r <= s
    ensures sep in s ==> r == s[..IndexOf(s, sep)]
    ensures sep !in s ==> r == s
  {
    Split(s, sep)[0]
  }

  /** The stem of `p + [sep] + s`, when `p` holds no separator, is `p`. */
  lemma StemBeforeSep(p: string, s: string, sep: char)
    requires sep !in p
    ensures Stem(p + [sep] + s, sep) == p
  {
    var t := p + [sep] + s;
    var i := IndexOf(t, sep);
    assert t[|p|] == sep;
    assert forall j :: 0 <= j < |p| ==> t[j] == p[j];
    assert t[..|p|] == p;
  }

  /** `strings.TrimPrefix(s, prefix)`: removes one leading copy of `prefix`, if present. */
  function TrimPrefix(s: string, prefix: string): (r: string)
    ensures prefix <= s ==> prefix + r == s
    ensures !(prefix <= s) ==> r == s
  {
    if prefix <= s then s[|prefix|..] else s
  }

  /** ASCII lower-casing of one character. */
  function LowerChar(c: char): (d: char)
    ensures 'A' <= c <= 'Z' ==> 'a' <= d <= 'z' && d as int == c as int + 32
    ensures !('A' <= c <= 'Z') ==> d == c
  {
    if 'A' <= c <= 'Z' then (c as int + 32) as char else c
  }

  /** `strings.ToLower`, for the ASCII letters (see README). */
  function ToLower(s: string): (r: string)
    ensures |r| == |s|
    ensures forall i :: 0 <= i < |s| ==> r[i] == LowerChar(s[i])
  {
    seq(|s|, i requires 0 <= i < |s| => LowerChar(s[i]))
  }

  /** A string with no upper-case ASCII letter. */
  predicate IsLower(s: string)
  {
    forall i :: 0 <= i < |s| ==> !('A' <= s[i] <= 'Z')
  }

  /** Lower-casing yields a lower-case string and changes nothing that already is one. */
  lemma ToLowerIsLower(s: string)
    ensures IsLower(ToLower(s))
    ensures IsLower(s) ==> ToLower(s) == s
    ensures ToLower(ToLower(s)) == ToLower(s)
  {
  }

  // ---------------------------------------------------------------------
  // strconv.Atoi and the int32 conversion

  const MinInt64: int := -0x8000_0000_0000_0000
  const MaxInt64: int := 0x7FFF_FFFF_FFFF_FFFF
  const MinInt32: int := -0x8000_0000
  const MaxInt32: int := 0x7FFF_FFFF

  predicate IsDigit(c: char) { '0' <= c <= '9' }

  predicate AllDigits(s: string) { forall i :: 0 <= i < |s| ==> IsDigit(s[i]) }

  /** Decimal value of a digit string, most significant digit first. */
  function DigitsValue(s: string): (v: nat)
    requires AllDigits(s)
  {
    if |s| == 0 then 0
    else DigitsValue(s[..|s| - 1]) * 10 + (s[|s| - 1] as int - '0' as int)
  }

  /**
    `strconv.Atoi(s)` on a 64-bit platform: an optional sign followed by one or
    more decimal digits whose value fits in int64; anything else (the empty
    string, spaces, a bare sign, a base prefix, an overflow) is an error.
  */
  function Atoi(s: string): (r: Option<int>)
    ensures r.Some? ==> MinInt64 <= r.value <= MaxInt64
    ensures |s| == 0 ==> r.None?
  {
    if |s| == 0 then None
    else
      var signed := s[0] == '+' || s[0] == '-';
      var digits := if signed then s[1..] else s;
      if |digits| == 0 || !AllDigits(digits) then None
      else
        var v := if s[0] == '-' then -(DigitsValue(digits) as int) else DigitsValue(digits);
        if MinInt64 <= v <= MaxInt64 then Some(v) else None
  }

  /** Decimal rendering of a natural number, without leading zeros. */
  function ShowNat(n: nat): (s: string)
    ensures |s| >= 1 && AllDigits(s)
  {
    if n < 10 then [('0' as int + n) as char]
    else ShowNat(n / 10) + [('0' as int + n % 10) as char]
  }

  /** Decimal rendering of an integer, as `strconv.Itoa` writes it. */
  function ShowInt(n: int): string
  {
    if n < 0 then "-" + ShowNat(-n) else ShowNat(n)
  }

  lemma {:induction false} DigitsValueShowNat(n: nat)
    ensures DigitsValue(ShowNat(n)) == n
  {
    if n >= 10 {
      var s := ShowNat(n);
      assert s[..|s| - 1] == ShowNat(n / 10);
      DigitsValueShowNat(n / 10);
    }
  }

  /** `strconv.Atoi` reads back every int64 that `strconv.Itoa` writes. */
  lemma AtoiShowInt(n: int)
    requires MinInt64 <= n <= MaxInt64
    ensures Atoi(ShowInt(n)) == Some(n)
  {
    if n < 0 {
      DigitsValueShowNat(-n);
      assert ShowInt(n)[1..] == ShowNat(-n);
    } else {
      DigitsValueShowNat(n);
      assert IsDigit(ShowNat(n)[0]);
    }
  }

  /** Go's `int32(x)`: keeps the low 32 bits, read as two's complement. */
  function Int32(x: int): (r: int)
    ensures MinInt32 <= r <= MaxInt32
    ensures (r - x) % 0x1_0000_0000 == 0
    ensures MinInt32 <= x <= MaxInt32 ==> r == x
  {
    var low := x % 0x1_0000_0000;
    if low <= MaxInt32 then low else low - 0x1_0000_0000
  }
}
