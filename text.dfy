/**
 * The few Python string operations the simulator relies on, over `string` (a
 * sequence of Unicode scalar values): `str.isspace`, `str.split()` with no
 * argument, `str.strip()`, `str.replace(c, "")`, `str.lower()` and `int()`.
 */
module Text {
  import opened Wrappers

  /** The characters for which Python's `str.isspace()` holds; `split()` and `strip()` use these. */
  predicate IsSpace(c: char) {
    ('\t' <= c <= '\r') || ('\U{1C}' <= c <= ' ') || c == '\U{85}' || c == '\U{A0}'
    || c == '\U{1680}' || ('\U{2000}' <= c <= '\U{200A}') || c == '\U{2028}' || c == '\U{2029}'
    || c == '\U{202F}' || c == '\U{205F}' || c == '\U{3000}'
  }

  /** A token as `split()` produces it: non-empty and free of whitespace. */
  predicate IsWord(w: string) {
    |w| > 0 && forall i :: 0 <= i < |w| ==> !IsSpace(w[i])
  }

  /** Length of the longest prefix of `s` that holds no whitespace. */
  function WordLength(s: string): (n: nat)
    ensures n <= |s|
    ensures forall i :: 0 <= i < n ==> !IsSpace(s[i])
    ensures n < |s| ==> IsSpace(s[n])
  {
    if s == [] || IsSpace(s[0]) then 0 else 1 + WordLength(s[1..])
  }

  /** Python's `s.split()`: the maximal runs of non-whitespace characters, in order. */
  function Split(s: string): (words: seq<string>)
    ensures forall k :: 0 <= k < |words| ==> IsWord(words[k])
    decreases |s|
  {
    if s == [] then []
    else if IsSpace(s[0]) then Split(s[1..])
    else
      var n := WordLength(s);
      [s[..n]] + Split(s[n..])
  }

  /** Python's `s.replace(c, "")`: `s` with every occurrence of `c` deleted. */
  function RemoveAll(s: string, c: char): (r: string)
    ensures c !in r
    ensures |r| <= |s|
  {
    if s == [] then []
    else (if s[0] == c then [] else [s[0]]) + RemoveAll(s[1..], c)
  }

  /** The operand list of one line: `line.replace(',', '').split()`. */
  function Tokens(line: string): (parts: seq<string>)
    ensures forall k :: 0 <= k < |parts| ==> IsWord(parts[k]) && ',' !in parts[k]
  {
    SplitAvoids(RemoveAll(line, ','), ',');
    Split(RemoveAll(line, ','))
  }

  /** A character absent from the input is absent from every word `Split` returns. */
  lemma {:induction false} SplitAvoids(s: string, c: char)
    requires c !in s
    ensures forall k :: 0 <= k < |Split(s)| ==> c !in Split(s)[k]
    decreases |s|
  {
    if s == [] {
    } else if IsSpace(s[0]) {
      SplitAvoids(s[1..], c);
    } else {
      var n := WordLength(s);
      SplitAvoids(s[n..], c);
      assert c !in s[..n];
    }
  }

  /** `s` without its leading whitespace. */
  function TrimStart(s: string): (r: string)
    decreases |s|
  {
    if s != [] && IsSpace(s[0]) then TrimStart(s[1..]) else s
  }

  /** `s` without its trailing whitespace. */
  function TrimEnd(s: string): (r: string)
    decreases |s|
  {
    if s != [] && IsSpace(s[|s| - 1]) then TrimEnd(s[..|s| - 1]) else s
  }

  /** Python's `s.strip()`. */
  function Strip(s: string): (r: string)
    ensures r != [] ==> !IsSpace(r[0]) && !IsSpace(r[|r| - 1])
    ensures |r| <= |s|
  {
    StripShape(s);
    TrimEnd(TrimStart(s))
  }

  lemma {:induction false} StripShape(s: string)
    ensures |TrimStart(s)| <= |s| && (TrimStart(s) != [] ==> !IsSpace(TrimStart(s)[0]))
    ensures |TrimEnd(TrimStart(s))| <= |TrimStart(s)|
    ensures var r := TrimEnd(TrimStart(s)); r != [] ==> !IsSpace(r[0]) && !IsSpace(r[|r| - 1])
  {
    TrimStartShape(s);
    TrimEndShape(TrimStart(s));
  }

  lemma {:induction false} TrimStartShape(s: string)
    ensures |TrimStart(s)| <= |s|
    ensures TrimStart(s) != [] ==> !IsSpace(TrimStart(s)[0])
    decreases |s|
  {
    if s != [] && IsSpace(s[0]) { TrimStartShape(s[1..]); }
  }

  lemma {:induction false} TrimEndShape(s: string)
    ensures |TrimEnd(s)| <= |s|
    ensures TrimEnd(s) == s[..|TrimEnd(s)|]
    ensures TrimEnd(s) != [] ==> !IsSpace(TrimEnd(s)[|TrimEnd(s)| - 1])
    decreases |s|
  {
    if s != [] && IsSpace(s[|s| - 1]) {
      TrimEndShape(s[..|s| - 1]);
    }
  }

  /** ASCII upper-case letters to lower case; every other character is left alone. */
  function LowerChar(c: char): char {
    if 'A' <= c <= 'Z' then (c as int - 'A' as int + 'a' as int) as char else c
  }

  /** Python's `s.lower()`, restricted to ASCII letters. */
  function Lower(s: string): (r: string)
    ensures |r| == |s|
  {
    if s == [] then [] else [LowerChar(s[0])] + Lower(s[1..])
  }

  /** Lower-casing neither creates nor removes a colon. */
  lemma {:induction false} LowerColon(s: string)
    ensures ':' in Lower(s) <==> ':' in s
  {
    if s != [] {
      LowerColon(s[1..]);
      assert s == [s[0]] + s[1..];
    }
  }

  predicate IsDigit(c: char) {
    '0' <= c <= '9'
  }

  function DigitValue(c: char): nat {
    if IsDigit(c) then c as int - '0' as int else 0
  }

  /**
   * The value of an unsigned base-10 numeral as Python's `int()` reads it:
   * digits, with single underscores allowed between two digits; `None` for
   * anything else.
   */
  function ParseNumeral(s: string): (r: Option<nat>)
    decreases |s|
  {
    if s == [] || !IsDigit(s[|s| - 1]) then None
    else if |s| == 1 then Some(DigitValue(s[0]))
    else
      var prefix := if s[|s| - 2] == '_' then s[..|s| - 2] else s[..|s| - 1];
      match ParseNumeral(prefix)
      case None => None
      case Some(v) => Some(10 * v + DigitValue(s[|s| - 1]))
  }

  /**
   * Python's `int(t)` on a whitespace-free token: an optional sign and a
   * numeral. `None` stands for the `ValueError` that `int()` raises.
   */
  function ParseInt(t: string): (r: Option<int>)
  {
    if |t| > 0 && (t[0] == '+' || t[0] == '-') then
      match ParseNumeral(t[1..])
      case None => None
      case Some(v) => Some(if t[0] == '-' then -(v as int) else v)
    else ParseNumeral(t)
  }

  function DigitChar(d: nat): char
    requires d < 10
  {
    ('0' as int + d) as char
  }

  /** The decimal text of a natural number, as Python's `str()` writes it. */
  function ShowNat(n: nat): (s: string)
    decreases n
  {
    if n < 10 then [DigitChar(n)] else ShowNat(n / 10) + [DigitChar(n % 10)]
  }

  /** The decimal text of an integer, as Python's `str()` writes it. */
  function ShowInt(n: int): string {
    if n < 0 then "-" + ShowNat(-n) else ShowNat(n)
  }

  lemma {:induction false} ParseShowNat(n: nat)
    ensures ShowNat(n) != [] && IsDigit(ShowNat(n)[0])
    ensures ParseNumeral(ShowNat(n)) == Some(n)
    decreases n
  {
    if n >= 10 {
      ParseShowNat(n / 10);
      var s := ShowNat(n);
      assert s[..|s| - 1] == ShowNat(n / 10);
    }
  }

  /** `str()` of a natural number writes decimal digits only. */
  lemma {:induction false} ShowNatDigits(n: nat)
    ensures forall i :: 0 <= i < |ShowNat(n)| ==> IsDigit(ShowNat(n)[i])
    decreases n
  {
    if n >= 10 {
      ShowNatDigits(n / 10);
    }
  }

  /** `str()` of an integer is a single word without commas or colons, fit to be an operand. */
  lemma ShowIntWord(n: int)
    ensures IsWord(ShowInt(n)) && ',' !in ShowInt(n) && ':' !in ShowInt(n)
  {
    ShowNatDigits(if n < 0 then -n else n);
  }

  /** Reading back what `str()` writes gives the same integer: `int(str(n)) == n`. */
  lemma ParseShowInt(n: int)
    ensures ParseInt(ShowInt(n)) == Some(n)
  {
    if n < 0 {
      ParseShowNat(-n);
      var digits := ShowNat(-n);
      var t := "-" + digits;
      assert ShowInt(n) == t;
      assert t[0] == '-' && t[1..] == digits;
    } else {
      ParseShowNat(n);
      var t := ShowNat(n);
      assert ShowInt(n) == t;
      assert t[0] != '+' && t[0] != '-';
    }
  }

  /** The words joined by `sep`, as Python's `sep.join(words)`. */
  function Join(words: seq<string>, sep: string): string {
    if words == [] then []
    else if |words| == 1 then words[0]
    else words[0] + sep + Join(words[1..], sep)
  }

  /** A source line written the usual way: the opcode, a space, and the operands separated by `", "`. */
  function FormatLine(opcode: string, operands: seq<string>): string {
    if operands == [] then opcode else opcode + " " + Join(operands, ", ")
  }

  lemma {:induction false} RemoveAllAppend(a: string, b: string, c: char)
    ensures RemoveAll(a + b, c) == RemoveAll(a, c) + RemoveAll(b, c)
    decreases |a|
  {
    if a != [] {
      RemoveAllAppend(a[1..], b, c);
      var head := if a[0] == c then [] else [a[0]];
      assert (a + b)[0] == a[0] && (a + b)[1..] == a[1..] + b;
      calc {
        RemoveAll(a + b, c);
        head + RemoveAll(a[1..] + b, c);
        head + (RemoveAll(a[1..], c) + RemoveAll(b, c));
        (head + RemoveAll(a[1..], c)) + RemoveAll(b, c);
        RemoveAll(a, c) + RemoveAll(b, c);
      }
    } else {
      assert a + b == b;
    }
  }

  lemma {:induction false} RemoveAllAbsent(s: string, c: char)
    requires c !in s
    ensures RemoveAll(s, c) == s
    decreases |s|
  {
    if s != [] {
      RemoveAllAbsent(s[1..], c);
      assert s == [s[0]] + s[1..];
    }
  }

  lemma {:induction false} WordLengthOfWordThenSpace(w: string, rest: string)
    requires IsWord(w)
    ensures WordLength(w + rest) >= |w|
    ensures rest != [] && IsSpace(rest[0]) ==> WordLength(w + rest) == |w|
    decreases |w|
  {
    if |w| > 1 {
      WordLengthOfWordThenSpace(w[1..], rest);
      assert (w + rest)[1..] == w[1..] + rest;
    } else {
      assert (w + rest)[1..] == rest;
    }
  }

  /** Removing commas from a comma-space separated list leaves a space separated one. */
  lemma {:induction false} RemoveCommasFromJoin(words: seq<string>)
    requires forall k :: 0 <= k < |words| ==> ',' !in words[k]
    ensures RemoveAll(Join(words, ", "), ',') == Join(words, " ")
    decreases |words|
  {
    if |words| == 1 {
      RemoveAllAbsent(words[0], ',');
    } else if |words| > 1 {
      var w, tail := words[0], Join(words[1..], ", ");
      calc {
        RemoveAll(Join(words, ", "), ',');
        { assert Join(words, ", ") == w + ", " + tail == w + (", " + tail); }
        RemoveAll(w + (", " + tail), ',');
        { RemoveAllAppend(w, ", " + tail, ','); }
        RemoveAll(w, ',') + RemoveAll(", " + tail, ',');
        { RemoveAllAbsent(w, ','); RemoveAllAppend(", ", tail, ','); assert RemoveAll(", ", ',') == " "; }
        w + (" " + RemoveAll(tail, ','));
        { RemoveCommasFromJoin(words[1..]); }
        w + (" " + Join(words[1..], " "));
        { assert w + " " + Join(words[1..], " ") == w + (" " + Join(words[1..], " ")); }
        Join(words, " ");
      }
    }
  }

  /** Splitting words joined by single spaces gives the words back. */
  lemma {:induction false} SplitJoin(words: seq<string>)
    requires forall k :: 0 <= k < |words| ==> IsWord(words[k])
    ensures Split(Join(words, " ")) == words
    decreases |words|
  {
    if |words| == 1 {
      var w := words[0];
      WordLengthOfWordThenSpace(w, []);
      assert w + [] == w;
      assert w[|w|..] == [];
    } else if |words| > 1 {
      var w, rest := words[0], " " + Join(words[1..], " ");
      var s := w + rest;
      assert Join(words, " ") == s;
      WordLengthOfWordThenSpace(w, rest);
      assert s[..|w|] == w;
      assert s[|w|..] == rest;
      SplitJoin(words[1..]);
      assert Split(rest) == Split(rest[1..]);
      assert rest[1..] == Join(words[1..], " ");
    }
  }

  /**
   * Tokenising a line written as `opcode op1, op2, ...` gives back the opcode
   * and the operands, whatever the words are, as long as they hold no
   * whitespace and no comma.
   */
  lemma TokensOfFormatLine(opcode: string, operands: seq<string>)
    requires IsWord(opcode) && ',' !in opcode
    requires forall k :: 0 <= k < |operands| ==> IsWord(operands[k]) && ',' !in operands[k]
    ensures Tokens(FormatLine(opcode, operands)) == [opcode] + operands
  {
    var words := [opcode] + operands;
    assert forall k :: 0 <= k < |words| ==> IsWord(words[k]) && ',' !in words[k] by {
      forall k | 0 <= k < |words| ensures IsWord(words[k]) && ',' !in words[k] {
        if k > 0 { assert words[k] == operands[k - 1]; }
      }
    }
    if operands == [] {
      RemoveAllAbsent(opcode, ',');
      assert Join(words, " ") == opcode;
    } else {
      RemoveCommasFromJoin(operands);
      RemoveAllAppend(opcode + " ", Join(operands, ", "), ',');
      RemoveAllAppend(opcode, " ", ',');
      RemoveAllAbsent(opcode, ',');
      assert RemoveAll(" ", ',') == " ";
      assert words[1..] == operands;
      assert Join(words, " ") == opcode + " " + Join(operands, " ");
    }
    SplitJoin(words);
  }
}
