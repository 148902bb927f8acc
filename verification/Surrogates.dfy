/** Rejecting lone surrogate escapes before decoding: jcs.go, section 3.2.2.2 of RFC 8785. Bytes are characters here. */
module Surrogates {
  import opened Events
  import opened Sequences

  // ---------- The literals as a grammar reads them ----------

  datatype Token =
    | Outside                 // a byte between string literals
    | Quote
    | Plain
    | Escape                  // a backslash and one byte
    | CodeUnit(unit: int)     // a backslash, `u` and four hexadecimal digits
    | Cut                     // a backslash that ends the input

  function HexDigit(c: char): (r: Option<int>)
    ensures r.Some? ==> 0 <= r.value < 16
  {
    if '0' <= c <= '9' then Some(c as int - '0' as int)
    else if 'a' <= c <= 'f' then Some(c as int - 'a' as int + 10)
    else if 'A' <= c <= 'F' then Some(c as int - 'A' as int + 10)
    else None
  }

  /** Sixteen digits, the letters among them in either case. */
  lemma {:induction false} HexDigitIs(c: char, d: int)
    ensures HexDigit(c) == Some(d) <==>
              0 <= d < 16 && ("0123456789abcdef"[d] == c || "0123456789ABCDEF"[d] == c)
  {}

  /** The number spelled by the first four characters. */
  function Hex4(s: string): (r: Option<int>)
    ensures r.Some? ==> 0 <= r.value < 0x1_0000
  {
    if |s| < 4 || exists i :: 0 <= i < 4 && HexDigit(s[i]) == None then None
    else
      var a, b, c, d := HexDigit(s[0]).value, HexDigit(s[1]).value, HexDigit(s[2]).value, HexDigit(s[3]).value;
      Some(((a * 16 + b) * 16 + c) * 16 + d)
  }

  /** The tokens of `s`, which begins inside or outside a string literal. */
  function Tokens(s: string, inString: bool): seq<Token>
    decreases |s|
  {
    if s == "" then []
    else if !inString then [if s[0] == '"' then Quote else Outside] + Tokens(s[1..], s[0] == '"')
    else if s[0] == '"' then [Quote] + Tokens(s[1..], false)
    else if s[0] != '\\' then [Plain] + Tokens(s[1..], true)
    else if |s| == 1 then [Cut]
    else if s[1] == 'u' && Hex4(s[2..]).Some? then [CodeUnit(Hex4(s[2..]).value)] + Tokens(s[6..], true)
    else [Escape] + Tokens(s[2..], true)
  }

  /** The characters a token stands for. */
  ghost predicate Stands(t: Token, piece: string) {
    match t
    case Outside => |piece| == 1 && piece != "\""
    case Quote => piece == "\""
    case Plain => |piece| == 1 && piece != "\"" && piece != "\\"
    case Escape => |piece| == 2 && piece[0] == '\\'
    case CodeUnit(unit) => |piece| == 6 && piece[..2] == "\\u" && Hex4(piece[2..]) == Some(unit)
    case Cut => piece == "\\"
  }

  /** How many characters the first token of `s` stands for. */
  function FirstLength(s: string, inString: bool): (n: nat)
    requires s != ""
    ensures 1 <= n <= |s|
  {
    if !inString || s[0] != '\\' || |s| == 1 then 1
    else if s[1] == 'u' && Hex4(s[2..]).Some? then 6
    else 2
  }

  lemma {:induction false} FirstTokenStands(s: string, inString: bool)
    requires s != ""
    ensures var n := FirstLength(s, inString);
            && Tokens(s, inString)
              == [Tokens(s, inString)[0]] + Tokens(s[n..], if inString then s[0] != '"' else s[0] == '"')
            && Stands(Tokens(s, inString)[0], s[..n])
  {
    if FirstLength(s, inString) == 6 {
      assert s[..6][..2] == "\\u" && s[..6][2..] == s[2..6];
      SameHex4(s[2..], s[..6][2..]);
    }
  }

  /** The tokens stand for the text, one after the other. */
  lemma {:induction false} TokensStand(s: string, inString: bool) returns (pieces: seq<string>)
    ensures Spells(s, pieces) && AllStand(Tokens(s, inString), pieces)
    decreases |s|
  {
    if s == "" {
      SpellsNothing<char>();
      pieces := [];
    } else {
      var n := FirstLength(s, inString);
      var inside := if inString then s[0] != '"' else s[0] == '"';
      FirstTokenStands(s, inString);
      pieces := TokensStand(s[n..], inside);
      SpellsAfter(s[n..], pieces, s[..n]);
      assert s == s[..n] + s[n..];
      OneMoreStands(Tokens(s, inString)[0], Tokens(s[n..], inside), s[..n], pieces);
      pieces := [s[..n]] + pieces;
    }
  }

  ghost predicate AllStand(tokens: seq<Token>, pieces: seq<string>) {
    |tokens| == |pieces| && forall k :: 0 <= k < |tokens| ==> Stands(tokens[k], pieces[k])
  }

  lemma {:induction false} OneMoreStands(t: Token, tokens: seq<Token>, piece: string, pieces: seq<string>)
    requires Stands(t, piece) && AllStand(tokens, pieces)
    ensures AllStand([t] + tokens, [piece] + pieces)
  {}

  lemma {:induction false} SameHex4(s: string, t: string)
    requires |s| >= 4 && |t| >= 4 && s[..4] == t[..4]
    ensures Hex4(s) == Hex4(t)
  {
    assert forall i :: 0 <= i < 4 ==> s[i] == s[..4][i] == t[i];
  }

  predicate IsHigh(t: Token) { t.CodeUnit? && 0xd800 <= t.unit <= 0xdbff }

  predicate IsLow(t: Token) { t.CodeUnit? && 0xdc00 <= t.unit <= 0xdfff }

  /** A high surrogate without a low one right after it, or a low one without a high one right before it. */
  ghost predicate LoneAt(tokens: seq<Token>, k: int) {
    && 0 <= k < |tokens|
    && ((IsHigh(tokens[k]) && !(k + 1 < |tokens| && IsLow(tokens[k + 1])))
        || (IsLow(tokens[k]) && !(k > 0 && IsHigh(tokens[k - 1]))))
  }

  ghost predicate NoLoneSurrogate(tokens: seq<Token>) {
    forall k :: !LoneAt(tokens, k)
  }

  // ---------- Read from the front ----------

  /** The same rule, read token by token. */
  predicate Paired(tokens: seq<Token>) {
    if tokens == [] then true
    else if IsHigh(tokens[0]) then |tokens| > 1 && IsLow(tokens[1]) && Paired(tokens[2..])
    else !IsLow(tokens[0]) && Paired(tokens[1..])
  }

  lemma {:induction false} LoneFurtherOn(tokens: seq<Token>, n: nat, k: int)
    requires n <= |tokens| && k >= 0
    requires k == 0 && n > 0 ==> !IsHigh(tokens[n - 1])
    ensures LoneAt(tokens[n..], k) <==> LoneAt(tokens, n + k)
  {}

  lemma {:induction false} PairedIffNoLone(tokens: seq<Token>)
    ensures Paired(tokens) <==> NoLoneSurrogate(tokens)
  {
    if tokens != [] && IsHigh(tokens[0]) {
      if |tokens| > 1 && IsLow(tokens[1]) {
        PairedIffNoLone(tokens[2..]);
        AfterPrefix(tokens, 2);
      } else {
        assert LoneAt(tokens, 0);
      }
    } else if tokens != [] {
      if IsLow(tokens[0]) {
        assert LoneAt(tokens, 0);
      } else {
        PairedIffNoLone(tokens[1..]);
        AfterPrefix(tokens, 1);
      }
    }
  }

  lemma {:induction false} AfterPrefix(tokens: seq<Token>, n: nat)
    requires 1 <= n <= |tokens| && !IsHigh(tokens[n - 1]) && forall k :: k < n ==> !LoneAt(tokens, k)
    ensures NoLoneSurrogate(tokens[n..]) <==> NoLoneSurrogate(tokens)
  {
    if NoLoneSurrogate(tokens) {
      forall k
        ensures !LoneAt(tokens[n..], k)
      {
        if k >= 0 {
          LoneFurtherOn(tokens, n, k);
        }
      }
    }
    if NoLoneSurrogate(tokens[n..]) {
      forall k
        ensures !LoneAt(tokens, k)
      {
        if k >= n {
          LoneFurtherOn(tokens, n, k - n);
        }
      }
    }
  }

  // ---------- The scanner ----------

  /** Four hexadecimal digits from `start` on, if they are there. */
  method ReadHex4(data: string, start: nat) returns (r: Option<int>)
    ensures r == if start <= |data| then Hex4(data[start..]) else None
  {
    if start + 4 > |data| {
      return None;
    }
    var value := 0;
    for i := start to start + 4
      invariant forall k :: start <= k < i ==> HexDigit(data[k]).Some?
      invariant i == start + 1 ==> value == HexDigit(data[start]).value
      invariant i == start + 2 ==> value == HexDigit(data[start]).value * 16 + HexDigit(data[start + 1]).value
      invariant i == start + 3 ==>
                  value == (HexDigit(data[start]).value * 16 + HexDigit(data[start + 1]).value) * 16
                    + HexDigit(data[start + 2]).value
      invariant i == start + 4 ==> Some(value) == Hex4(data[start..])
      invariant i == start ==> value == 0
    {
      var digit := HexDigit(data[i]);
      if digit == None {
        assert data[start..][i - start] == data[i];
        return None;
      }
      value := value * 16 + digit.value;
    }
    return Some(value);
  }

  /** What is left from position `i` on is paired. */
  ghost predicate RestPaired(data: string, i: nat, inString: bool)
    requires i <= |data|
  {
    Paired(Tokens(data[i..], inString))
  }

  /** What the scanner decides at a backslash inside a literal. */
  datatype Verdict = Accept | Reject | Advance(count: nat)

  /** One escape, from the backslash at `i`. */
  method ScanEscape(data: string, i: nat) returns (v: Verdict)
    requires i < |data| && data[i] == '\\'
    ensures v.Accept? ==> RestPaired(data, i, true)
    ensures v.Reject? ==> !RestPaired(data, i, true)
    ensures v.Advance? ==> v.count >= 1 && i + v.count <= |data|
    ensures v.Advance? ==> RestPaired(data, i, true) == RestPaired(data, i + v.count, true)
  {
    ghost var s := data[i..];
    if i + 1 >= |data| {
      assert Tokens(s, true) == [Cut];
      return Accept;
    }
    assert s[1] == data[i + 1] && s[2..] == data[i + 2..];
    if data[i + 1] != 'u' {
      assert Tokens(s, true) == [Escape] + Tokens(s[2..], true);
      return Advance(2);
    }
    var code := ReadHex4(data, i + 2);
    if code == None {
      assert Tokens(s, true) == [Escape] + Tokens(s[2..], true);
      return Advance(2);
    }
    assert s[6..] == data[i + 6..];
    ghost var after := Tokens(s[6..], true);
    assert Tokens(s, true) == [CodeUnit(code.value)] + after;
    assert Tokens(s, true)[1..] == after;
    if 0xd800 <= code.value <= 0xdbff {
      var low := LowFollows(data, i + 6);
      if low {
        assert Tokens(s, true)[2..] == after[1..];
        return Advance(12);
      }
      return Reject;
    }
    if 0xdc00 <= code.value <= 0xdfff {
      return Reject;
    }
    return Advance(6);
  }

  /** Whether an escaped low surrogate starts at `i`. */
  method LowFollows(data: string, i: nat) returns (low: bool)
    requires i <= |data|
    ensures low <==> var t := Tokens(data[i..], true); t != [] && IsLow(t[0])
    ensures low ==> i + 6 <= |data| && Tokens(data[i..], true)[1..] == Tokens(data[i + 6..], true)
  {
    ghost var s := data[i..];
    if i + 1 >= |data| || data[i] != '\\' || data[i + 1] != 'u' {
      return false;
    }
    assert s[0] == data[i] && s[1] == data[i + 1] && s[2..] == data[i + 2..];
    var next := ReadHex4(data, i + 2);
    if next == None || next.value < 0xdc00 || next.value > 0xdfff {
      return false;
    }
    assert s[6..] == data[i + 6..];
    assert Tokens(s, true) == [CodeUnit(next.value)] + Tokens(s[6..], true);
    return true;
  }

  /** Accepts exactly the inputs whose string literals have no lone surrogate escape. */
  method ValidateSurrogateEscapes(data: string) returns (ok: bool)
    ensures ok <==> NoLoneSurrogate(Tokens(data, false))
  {
    WholeIsRest(data);
    ghost var whole := RestPaired(data, 0, false);
    var inString := false;
    var i := 0;
    while i < |data|
      invariant 0 <= i <= |data|
      invariant whole == RestPaired(data, i, inString)
      decreases |data| - i
    {
      if !inString || data[i] == '"' || data[i] != '\\' {
        OneByte(data, i, inString);
        inString := if data[i] == '"' then !inString else inString;
        i := i + 1;
      } else {
        var verdict := ScanEscape(data, i);
        if !verdict.Advance? {
          return verdict.Accept?;
        }
        i := i + verdict.count;
      }
    }
    NothingLeft(data, inString);
    return true;
  }

  lemma {:induction false} WholeIsRest(data: string)
    ensures RestPaired(data, 0, false) <==> NoLoneSurrogate(Tokens(data, false))
  {
    PairedIffNoLone(Tokens(data, false));
    assert data[0..] == data;
  }

  lemma {:induction false} NothingLeft(data: string, inString: bool)
    ensures RestPaired(data, |data|, inString)
  {
    assert data[|data|..] == "";
  }

  lemma {:induction false} OneByte(data: string, i: nat, inString: bool)
    requires i < |data|
    ensures !inString || data[i] != '\\' ==>
              RestPaired(data, i, inString) == RestPaired(data, i + 1, if data[i] == '"' then !inString else inString)
  {
    var s := data[i..];
    assert s[1..] == data[i + 1..];
    if !inString || data[i] != '\\' {
      var t := Tokens(s, inString);
      assert t[1..] == Tokens(s[1..], if data[i] == '"' then !inString else inString);
    }
  }
}
