/**
 * mIRC text formatting (`Format` in luckybot/irc/__init__.py, duplicated
 * verbatim in luckybot/protocols/irc.py): colour codes, the single-character
 * style toggles, and the substitution that strips them again.
 */
module IrcFormat {
  import opened Wrappers
  import opened Text

  const ColorChar: char := '\U{03}'
  const NormalChar: char := '\U{0F}'
  const BoldChar: char := '\U{02}'
  const ReverseChar: char := '\U{16}'
  const UnderlineChar: char := '\U{1F}'

  /** `Format.normal()`, `Format.bold()`, `Format.reverse()`, `Format.underline()` */
  const Normal: string := [NormalChar]
  const Bold: string := [BoldChar]
  const Reverse: string := [ReverseChar]
  const Underline: string := [UnderlineChar]

  /** The colour attributes of `Format`, black = 1 up to white = 16. */
  const Colors: map<string, nat> := map[
    "black" := 1, "darkblue" := 2, "green" := 3, "red" := 4,
    "darkred" := 5, "purple" := 6, "orange" := 7, "yellow" := 8,
    "lightgreen" := 9, "aqua" := 10, "lightblue" := 11, "blue" := 12,
    "violet" := 13, "grey" := 14, "lightgrey" := 15, "white" := 16]

  /** The attributes `Format` defines besides the colours: its class
      methods, and the docstring and module name every class has. None is
      a number, so `"%02.f"` cannot format it. */
  const FormatMembers: set<string> := {"color", "normal", "bold", "reverse", "underline", "remove",
                                       "__doc__", "__module__", "__dict__", "__weakref__"}

  /** `"%02.f" % code` raises `TypeError` when `getattr` found no number. */
  datatype ColorError = NotANumber(attribute: string)

  /** The code `Format.color` looks up with `getattr`: a colour's number,
      a `TypeError` for any other attribute of `Format`, and 1 when the
      lookup raised, that is for a name `Format` does not have. */
  function ColorCode(name: string): (r: Result<nat, ColorError>)
    ensures name in Colors ==> r == Ok(Colors[name])
    ensures name in FormatMembers ==> r == Err(NotANumber(name))
    ensures name !in Colors && name !in FormatMembers ==> r == Ok(1)
    ensures r.Ok? ==> 1 <= r.value <= 16
  {
    if name in Colors then Ok(Colors[name])
    else if name in FormatMembers then Err(NotANumber(name))
    else Ok(1)
  }

  /** `"%02.f" % n` for 0 <= n < 100: two digits, zero padded. */
  function TwoDigits(n: nat): (r: string)
    requires n < 100
    ensures |r| == 2 && AllDigits(r) && DigitsValue(r) == n
  {
    var r := [DigitChar(n / 10), DigitChar(n % 10)];
    assert r[..1] == [DigitChar(n / 10)];
    assert DigitsValue(r[..1]) == n / 10 by {
      assert r[..1][..0] == [];
    }
    r
  }

  /** `Format.color(name)`: the colour control character and the two-digit
      code, or the `TypeError` of a non-colour attribute. */
  function Color(name: string): (r: Result<string, ColorError>)
    ensures r.Err? <==> name in FormatMembers
    ensures r.Ok? ==> |r.value| == 3 && r.value[0] == ColorChar
    ensures r.Ok? ==> AllDigits(r.value[1..]) && DigitsValue(r.value[1..]) == ColorCode(name).value
  {
    match ColorCode(name)
    case Err(e) => Err(e)
    case Ok(code) => Ok([ColorChar] + TwoDigits(code))
  }

  /** A known colour is written with its own number, an unknown name with
      black's, and the method names raise. */
  lemma ColorOfName(name: string)
    ensures name in Colors ==> Color(name).Ok? && DigitsValue(Color(name).value[1..]) == Colors[name]
    ensures name !in Colors && name !in FormatMembers ==> Color(name) == Ok([ColorChar, '0', '1'])
    ensures name in FormatMembers ==> Color(name) == Err(NotANumber(name))
  {
    assert Colors.Keys !! FormatMembers;
    if name !in Colors && name !in FormatMembers {
      assert DigitChar(0) == '0' && DigitChar(1) == '1';
      assert TwoDigits(1) == ['0', '1'];
      assert ColorCode(name) == Ok(1);
      assert Color(name) == Ok([ColorChar] + TwoDigits(1));
      assert [ColorChar] + ['0', '1'] == [ColorChar, '0', '1'];
    }
  }

  /** The four codes removed one character at a time. */
  predicate IsStyleChar(c: char) {
    c == NormalChar || c == BoldChar || c == ReverseChar || c == UnderlineChar
  }

  /** Length of the leading run of decimal digits. */
  function DigitRun(s: string): (n: nat)
    ensures n <= |s| && AllDigits(s[..n])
    ensures n < |s| ==> !IsDigit(s[n])
  {
    if s == [] || !IsDigit(s[0]) then 0
    else
      var n := 1 + DigitRun(s[1..]);
      assert s[..n] == [s[0]] + s[1..][..n - 1];
      n
  }

  /**
   * `Format.remove(s)`: one left-to-right pass of the pattern
   * `\x03[0-9]+ | \x0F | \x02 | \x16 | \x1F`, replacing every match by
   * nothing. The digit run after a colour character is taken greedily.
   */
  function Remove(s: string): (r: string)
    ensures |r| <= |s|
    ensures forall i :: 0 <= i < |r| ==> !IsStyleChar(r[i])
    decreases |s|
  {
    if s == [] then []
    else if s[0] == ColorChar && |s| > 1 && IsDigit(s[1]) then
      Remove(s[1 + DigitRun(s[1..])..])
    else if IsStyleChar(s[0]) then Remove(s[1..])
    else [s[0]] + Remove(s[1..])
  }

  /** Text without any control character comes back unchanged. */
  lemma {:induction false} RemovePlain(s: string)
    requires forall i :: 0 <= i < |s| ==> s[i] != ColorChar && !IsStyleChar(s[i])
    ensures Remove(s) == s
  {
    if s != [] {
      RemovePlain(s[1..]);
    }
  }

  /** A leading style toggle is dropped and nothing else changes. */
  lemma RemoveStylePrefix(c: char, s: string)
    requires IsStyleChar(c)
    ensures Remove([c] + s) == Remove(s)
  {
    assert ([c] + s)[1..] == s;
  }

  /** `Format.remove` takes a colour code together with its whole digit
      run; when the text after it starts with a digit, those digits go too. */
  lemma RemoveColorGreedy(digits: string, s: string)
    requires digits != [] && AllDigits(digits)
    ensures Remove([ColorChar] + digits + s) == Remove(s[DigitRun(s)..])
  {
    var t := [ColorChar] + digits + s;
    assert t[0] == ColorChar && t[1] == digits[0];
    assert t[1..] == digits + s;
    DigitRunAppend(digits, s);
    var n := DigitRun(t[1..]);
    assert n == |digits| + DigitRun(s);
    assert t[1 + n..] == s[DigitRun(s)..];
    assert Remove(t) == Remove(t[1 + n..]);
  }

  lemma {:induction false} DigitRunAppend(digits: string, s: string)
    requires AllDigits(digits)
    ensures DigitRun(digits + s) == |digits| + DigitRun(s)
  {
    if digits != [] {
      assert (digits + s)[1..] == digits[1..] + s;
      DigitRunAppend(digits[1..], s);
    } else {
      assert digits + s == s;
    }
  }

  /** Removing a colour code followed by non-digit text leaves the text as
      `Format.remove` would have left it alone. */
  lemma RemoveColorPrefix(name: string, s: string)
    requires Color(name).Ok?
    requires s == [] || !IsDigit(s[0])
    ensures Remove(Color(name).value + s) == Remove(s)
  {
    var c := Color(name).value;
    assert c == [ColorChar] + c[1..];
    assert c + s == [ColorChar] + c[1..] + s;
    RemoveColorGreedy(c[1..], s);
    assert DigitRun(s) == 0;
  }

  /** The greedy digit run eats digits belonging to the text: a red "5 apples"
      loses its 5. */
  lemma RemoveEatsLeadingDigits()
    ensures Color("red").Ok? && Remove(Color("red").value + "5 apples") == " apples"
  {
    var red := Color("red").value;
    RemoveColorGreedy(red[1..], "5 apples");
    assert red == [ColorChar] + red[1..];
    assert red + "5 apples" == [ColorChar] + red[1..] + "5 apples";
    assert DigitRun("5 apples") == 1;
    assert "5 apples"[1..] == " apples";
    ApplesPlain();
  }

  lemma ApplesPlain()
    ensures Remove(" apples") == " apples"
  {
    RemovePlain(" apples");
  }
}
