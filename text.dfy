/**
 * The text operations behind BeautifulSoup's `get_text(sep, strip=True)` and
 * Python's `str.join`: every text fragment is stripped with `str.strip()`,
 * the fragments that become empty are dropped, and the rest are joined with
 * the separator. Whitespace inside a fragment is kept as it is.
 */
module Text {

  /** Python's `str.isspace()`: the characters `str.strip()` removes, by code point. */
  predicate IsSpace(c: char) {
    var n := c as int;
    || 0x09 <= n <= 0x0D || 0x1C <= n <= 0x20 || n == 0x85 || n == 0xA0 || n == 0x1680
    || 0x2000 <= n <= 0x200A || n == 0x2028 || n == 0x2029 || n == 0x202F || n == 0x205F || n == 0x3000
  }

  /** Every character of `s` is whitespace (the empty string included). */
  predicate Blank(s: string) {
    forall i :: 0 <= i < |s| ==> IsSpace(s[i])
  }

  /** `s` neither starts nor ends with whitespace. */
  predicate Trimmed(s: string) {
    s != [] ==> !IsSpace(s[0]) && !IsSpace(s[|s| - 1])
  }

  /** `str.lstrip()`: drops the leading whitespace. */
  function TrimStart(s: string): (r: string)
    ensures |r| <= |s|
    ensures r != [] ==> !IsSpace(r[0])
    decreases |s|
  {
    if s != [] && IsSpace(s[0]) then TrimStart(s[1..]) else s
  }

  /** `str.rstrip()`: drops the trailing whitespace. */
  function TrimEnd(s: string): (r: string)
    ensures |r| <= |s|
    ensures r != [] ==> r[0] == s[0] && !IsSpace(r[|r| - 1])
    decreases |s|
  {
    if s != [] && IsSpace(s[|s| - 1]) then TrimEnd(s[..|s| - 1]) else s
  }

  /** `lstrip` removes a blank prefix and keeps the rest as it is. */
  lemma {:induction false} TrimStartShape(s: string)
    ensures TrimStart(s) == s[|s| - |TrimStart(s)|..]
    ensures Blank(s[..|s| - |TrimStart(s)|])
    decreases |s|
  {
    if s != [] && IsSpace(s[0]) {
      TrimStartShape(s[1..]);
      var k := |s| - |TrimStart(s)|;
      assert s[1..][k - 1..] == s[k..];
      assert forall i :: 1 <= i < k ==> s[..k][i] == s[1..][..k - 1][i - 1];
    }
  }

  /** `rstrip` removes a blank suffix and keeps the rest as it is. */
  lemma {:induction false} TrimEndShape(s: string)
    ensures TrimEnd(s) == s[..|TrimEnd(s)|]
    ensures Blank(s[|TrimEnd(s)|..])
    decreases |s|
  {
    if s != [] && IsSpace(s[|s| - 1]) {
      var init := s[..|s| - 1];
      TrimEndShape(init);
      var k := |TrimEnd(s)|;
      assert init[..k] == s[..k];
      assert forall i :: k <= i < |s| - 1 ==> s[i] == init[i];
    }
  }

  /** `str.strip()`: whitespace cut from both ends. */
  function Strip(s: string): (r: string)
    ensures |r| <= |s| && Trimmed(r)
  {
    TrimEnd(TrimStart(s))
  }

  /**
   * What `str.strip()` leaves is a contiguous piece of `s` with only
   * whitespace cut on either side, and it is empty exactly when `s` is blank.
   */
  lemma StripShape(s: string)
    ensures Strip(s) == [] <==> Blank(s)
    ensures exists i :: 0 <= i <= |s| - |Strip(s)| && Strip(s) == s[i..i + |Strip(s)|] && Blank(s[..i]) && Blank(s[i + |Strip(s)|..])
  {
    var t := TrimStart(s);
    var r := TrimEnd(t);
    var i := |s| - |t|;
    TrimStartShape(s);
    TrimEndShape(t);
    assert s[i..] == t;
    assert s[i..i + |r|] == r;
    assert s[i + |r|..] == t[|r|..];
    if r == [] {
      assert s == s[..i] + t;
      assert Blank(t);
    } else {
      assert !IsSpace(s[i]);
    }
  }

  /** Python's `sep.join(parts)`. */
  function Join(parts: seq<string>, sep: string): (r: string)
    decreases |parts|
  {
    if |parts| == 0 then []
    else if |parts| == 1 then parts[0]
    else Join(parts[..|parts| - 1], sep) + sep + parts[|parts| - 1]
  }

  /** Sum of the lengths of `parts`. */
  function TotalLength(parts: seq<string>): nat
    decreases |parts|
  {
    if parts == [] then 0 else TotalLength(parts[..|parts| - 1]) + |parts[|parts| - 1]|
  }

  /** Where part `k` starts in `Join(parts, sep)`: every earlier part and one separator after each. */
  function Offset(parts: seq<string>, sep: string, k: nat): nat
    requires k <= |parts|
  {
    if k == 0 then 0 else Offset(parts, sep, k - 1) + |parts[k - 1]| + |sep|
  }

  lemma {:induction false} OffsetPrefix(parts: seq<string>, sep: string, n: nat, k: nat)
    requires k <= n <= |parts|
    ensures Offset(parts[..n], sep, k) == Offset(parts, sep, k)
  {
    if k > 0 {
      OffsetPrefix(parts, sep, n, k - 1);
    }
  }

  /** The joined string is as long as every part with one separator after each but the last. */
  lemma {:induction false} JoinSize(parts: seq<string>, sep: string)
    requires |parts| > 0
    ensures |Join(parts, sep)| == Offset(parts, sep, |parts| - 1) + |parts[|parts| - 1]|
    decreases |parts|
  {
    var n := |parts|;
    if n > 1 {
      JoinSize(parts[..n - 1], sep);
      OffsetPrefix(parts, sep, n - 1, n - 2);
    }
  }

  /** Part `k` stands at its offset in the joined string. */
  lemma {:induction false} JoinPart(parts: seq<string>, sep: string, k: nat)
    requires k < |parts|
    ensures Offset(parts, sep, k) + |parts[k]| <= |Join(parts, sep)|
    ensures Join(parts, sep)[Offset(parts, sep, k)..Offset(parts, sep, k) + |parts[k]|] == parts[k]
    decreases |parts|
  {
    var n := |parts|;
    JoinSize(parts, sep);
    if n > 1 {
      var init := parts[..n - 1];
      var j := Join(init, sep);
      var r := Join(parts, sep);
      JoinSize(init, sep);
      OffsetPrefix(parts, sep, n - 1, n - 2);
      if k < n - 1 {
        JoinPart(init, sep, k);
        OffsetPrefix(parts, sep, n - 1, k);
        assert init[k] == parts[k];
        assert r[Offset(parts, sep, k)..Offset(parts, sep, k) + |parts[k]|]
            == j[Offset(init, sep, k)..Offset(init, sep, k) + |init[k]|];
      } else {
        assert r[|j| + |sep|..] == parts[n - 1];
      }
    }
  }

  /** The separator stands right after every part but the last. */
  lemma {:induction false} JoinSeparator(parts: seq<string>, sep: string, k: nat)
    requires k + 1 < |parts|
    ensures Offset(parts, sep, k) + |parts[k]| + |sep| <= |Join(parts, sep)|
    ensures Join(parts, sep)[Offset(parts, sep, k) + |parts[k]|..Offset(parts, sep, k + 1)] == sep
    decreases |parts|
  {
    var n := |parts|;
    var init := parts[..n - 1];
    var j := Join(init, sep);
    var r := Join(parts, sep);
    assert r == j + sep + parts[n - 1];
    JoinSize(parts, sep);
    JoinSize(init, sep);
    OffsetPrefix(parts, sep, n - 1, k);
    OffsetPrefix(parts, sep, n - 1, k + 1);
    var lo, hi := Offset(parts, sep, k) + |parts[k]|, Offset(parts, sep, k + 1);
    assert init[k] == parts[k];
    assert hi == lo + |sep|;
    if k + 1 < n - 1 {
      JoinSeparator(init, sep, k);
      assert hi <= |j|;
      assert r[lo..hi] == j[lo..hi];
    } else {
      OffsetPrefix(parts, sep, n - 1, n - 2);
      assert lo == |j|;
      assert r[lo..hi] == sep;
    }
  }

  /** The joined string holds the parts' characters and exactly `|parts| - 1` separators. */
  lemma {:induction false} JoinLength(parts: seq<string>, sep: string)
    requires |parts| > 0
    ensures |Join(parts, sep)| == TotalLength(parts) + (|parts| - 1) * |sep|
    decreases |parts|
  {
    if |parts| > 1 {
      JoinLength(parts[..|parts| - 1], sep);
    }
  }

  /** Removing blank padding before a string does not change what `lstrip` leaves. */
  lemma {:induction false} TrimStartPadding(a: string, s: string)
    requires Blank(a)
    ensures TrimStart(a + s) == TrimStart(s)
    decreases |a|
  {
    if a == [] {
      assert a + s == s;
    } else {
      assert (a + s)[0] == a[0];
      assert (a + s)[1..] == a[1..] + s;
      TrimStartPadding(a[1..], s);
    }
  }

  /** Removing blank padding after a string does not change what `rstrip` leaves. */
  lemma {:induction false} TrimEndPadding(s: string, b: string)
    requires Blank(b)
    ensures TrimEnd(s + b) == TrimEnd(s)
    decreases |b|
  {
    if b == [] {
      assert s + b == s;
    } else {
      assert (s + b)[|s + b| - 1] == b[|b| - 1];
      assert (s + b)[..|s + b| - 1] == s + b[..|b| - 1];
      TrimEndPadding(s, b[..|b| - 1]);
    }
  }

  /** `lstrip` of a non-blank string leaves whatever follows it untouched. */
  lemma {:induction false} TrimStartAppend(s: string, b: string)
    requires !Blank(s)
    ensures TrimStart(s + b) == TrimStart(s) + b
    decreases |s|
  {
    if IsSpace(s[0]) {
      assert (s + b)[1..] == s[1..] + b;
      TrimStartAppend(s[1..], b);
    }
  }

  /** `lstrip` leaves nothing of a blank string. */
  lemma {:induction false} TrimStartOfBlank(s: string)
    requires Blank(s)
    ensures TrimStart(s) == []
    decreases |s|
  {
    if s != [] {
      TrimStartOfBlank(s[1..]);
    }
  }

  /** Whitespace padding on either side of a fragment never reaches the stripped text. */
  lemma StripPadding(a: string, s: string, b: string)
    requires Blank(a) && Blank(b)
    ensures Strip(a + s + b) == Strip(s)
  {
    assert a + s + b == a + (s + b);
    TrimStartPadding(a, s + b);
    if Blank(s) {
      assert Blank(s + b);
      TrimStartOfBlank(s + b);
      TrimStartOfBlank(s);
    } else {
      TrimStartAppend(s, b);
      TrimEndPadding(TrimStart(s), b);
    }
  }

  /** Stripping twice is stripping once. */
  lemma StripIdempotent(s: string)
    ensures Strip(Strip(s)) == Strip(s)
  {
    var r := Strip(s);
    assert TrimStart(r) == r;
  }

  /** The stripped, non-empty fragments, in order: the strings `get_text(strip=True)` joins. */
  function Pieces(fragments: seq<string>): (r: seq<string>)
    ensures |r| <= |fragments|
    decreases |fragments|
  {
    if fragments == [] then []
    else
      var p := Strip(fragments[|fragments| - 1]);
      Pieces(fragments[..|fragments| - 1]) + (if p == [] then [] else [p])
  }

  /** Every piece is non-empty and trimmed. */
  lemma {:induction false} PiecesTrimmed(fragments: seq<string>)
    ensures forall i :: 0 <= i < |Pieces(fragments)| ==> Pieces(fragments)[i] != [] && Trimmed(Pieces(fragments)[i])
    decreases |fragments|
  {
    if fragments != [] {
      PiecesTrimmed(fragments[..|fragments| - 1]);
    }
  }

  /** No piece survives exactly when every fragment is blank. */
  lemma {:induction false} PiecesEmpty(fragments: seq<string>)
    ensures Pieces(fragments) == [] <==> forall i :: 0 <= i < |fragments| ==> Blank(fragments[i])
    decreases |fragments|
  {
    if fragments != [] {
      var n := |fragments|;
      var init := fragments[..n - 1];
      PiecesEmpty(init);
      StripShape(fragments[n - 1]);
      assert forall i :: 0 <= i < n - 1 ==> init[i] == fragments[i];
    }
  }

  /** BeautifulSoup's `get_text(sep, strip=True)` over a node's text fragments. */
  function GetText(fragments: seq<string>, sep: string): string {
    Join(Pieces(fragments), sep)
  }

  /** The text of a node is empty exactly when every fragment of it is whitespace. */
  lemma GetTextEmpty(fragments: seq<string>, sep: string)
    ensures GetText(fragments, sep) == [] <==> forall i :: 0 <= i < |fragments| ==> Blank(fragments[i])
  {
    var ps := Pieces(fragments);
    PiecesEmpty(fragments);
    PiecesTrimmed(fragments);
    if ps != [] {
      JoinPart(ps, sep, 0);
    }
  }

  /** Joining non-empty trimmed parts gives a trimmed string, whatever the separator. */
  lemma JoinTrimmed(parts: seq<string>, sep: string)
    requires forall i :: 0 <= i < |parts| ==> parts[i] != [] && Trimmed(parts[i])
    ensures Trimmed(Join(parts, sep))
  {
    if parts != [] {
      var r := Join(parts, sep);
      var n := |parts|;
      var first, last := parts[0], parts[n - 1];
      JoinSize(parts, sep);
      JoinPart(parts, sep, 0);
      JoinPart(parts, sep, n - 1);
      var o := Offset(parts, sep, n - 1);
      assert r[0..|first|] == first;
      assert r[0] == first[0];
      assert r[o..o + |last|] == last;
      assert r[|r| - 1] == r[o..o + |last|][|last| - 1];
    }
  }

  /** Whatever the separator, the text of a node never starts or ends with whitespace. */
  lemma GetTextTrimmed(fragments: seq<string>, sep: string)
    ensures Trimmed(GetText(fragments, sep))
  {
    PiecesTrimmed(fragments);
    JoinTrimmed(Pieces(fragments), sep);
  }

  /** A single fragment's text is that fragment stripped: inner whitespace runs are kept, not collapsed. */
  lemma GetTextSingle(fragment: string, sep: string)
    ensures GetText([fragment], sep) == Strip(fragment)
  {
    assert [fragment][..0] == [];
  }
}
