/** Numbers in attribute text, as the stream library writes and reads them. */
module DecimalText {
  import opened Basics
  import opened LayerTree

  function DigitChar(d: nat): (c: char)
    requires d < 10
    ensures IsDigit(c) && DigitValue(c) == d
  {
    (d + '0' as int) as char
  }

  predicate IsDigit(c: char) {
    '0' <= c <= '9'
  }

  function DigitValue(c: char): (d: nat)
    requires IsDigit(c)
    ensures d < 10
  {
    c as int - '0' as int
  }

  function Digits(n: nat): (s: string)
    ensures |s| > 0 && IsDigit(s[0])
  {
    if n < 10 then [DigitChar(n)] else Digits(n / 10) + [DigitChar(n % 10)]
  }

  function PrintInt(n: int): string {
    if n < 0 then "-" + Digits(-n) else Digits(n)
  }

  function PrintBool(b: bool): string {
    if b then "1" else "0"
  }

  /** Consumes digits, least significant last. */
  function TakeDigits(s: string, acc: nat): (nat, string)
    decreases |s|
  {
    if s == "" || !IsDigit(s[0]) then (acc, s)
    else TakeDigits(s[1..], 10 * acc + DigitValue(s[0]))
  }

  function SkipSpaces(s: string): (r: string)
    ensures |r| <= |s|
  {
    if s != "" && s[0] == ' ' then SkipSpaces(s[1..]) else s
  }

  /** Reads one number after optional blanks; nothing if there is none. */
  function ReadInt(s: string): Option<(int, string)> {
    var t := SkipSpaces(s);
    if t == "" then None
    else if IsDigit(t[0]) then
      var (n, rest) := TakeDigits(t, 0);
      Some((n, rest))
    else if t[0] == '-' && |t| > 1 && IsDigit(t[1]) then
      var (n, rest) := TakeDigits(t[1..], 0);
      var v: int := -(n as int);
      Some((v, rest))
    else None
  }

  /** The C conversion: zero if the text does not start with a number. */
  function Atoi(s: string): int {
    var r := ReadInt(s);
    if r.Some? then r.value.0 else 0
  }

  lemma {:induction false} TakeShrinks(s: string, acc: nat)
    ensures |TakeDigits(s, acc).1| <= |s|
    ensures s != "" && IsDigit(s[0]) ==> |TakeDigits(s, acc).1| < |s|
    decreases |s|
  {
    if s != "" && IsDigit(s[0]) {
      TakeShrinks(s[1..], 10 * acc + DigitValue(s[0]));
    }
  }

  lemma ReadShrinks(s: string)
    ensures ReadInt(s).Some? ==> |ReadInt(s).value.1| < |s|
  {
    var t := SkipSpaces(s);
    TakeShrinks(t, 0);
    if t != "" {
      TakeShrinks(t[1..], 0);
    }
  }

  lemma {:induction false} TakesDigits(n: nat, rest: string)
    ensures TakeDigits(Digits(n) + rest, 0) == TakeDigits(rest, n)
  {
    if n < 10 {
      assert (Digits(n) + rest)[1..] == rest;
    } else {
      var d := DigitChar(n % 10);
      assert Digits(n) + rest == Digits(n / 10) + ([d] + rest);
      TakesDigits(n / 10, [d] + rest);
      assert ([d] + rest)[1..] == rest;
    }
  }

  /** What follows a number does not extend it. */
  predicate Delimited(rest: string) {
    rest == "" || !IsDigit(rest[0])
  }

  lemma LeadingSpace(s: string)
    ensures ReadInt(" " + s) == ReadInt(s)
  {
    assert (" " + s)[1..] == s;
    assert SkipSpaces(" " + s) == SkipSpaces(s);
  }

  lemma ReadsPrinted(n: int, rest: string)
    requires Delimited(rest)
    ensures ReadInt(PrintInt(n) + rest) == Some((n, rest))
    ensures ReadInt(" " + PrintInt(n) + rest) == Some((n, rest))
  {
    var m: nat := if n < 0 then -n else n;
    TakesDigits(m, rest);
    var s := PrintInt(n) + rest;
    if n < 0 {
      assert s[1..] == Digits(m) + rest;
    }
    assert s[0] != ' ' && SkipSpaces(s) == s;
    assert " " + PrintInt(n) + rest == " " + s;
    LeadingSpace(s);
  }

  lemma AtoiPrinted(n: int)
    ensures Atoi(PrintInt(n)) == n
  {
    ReadsPrinted(n, "");
    assert PrintInt(n) + "" == PrintInt(n);
  }

  lemma NoNumberIsZero(s: string)
    requires s == "" || !(IsDigit(s[0]) || s[0] == ' ' || s[0] == '-')
    ensures Atoi(s) == 0
  {
  }

  lemma AtoiBool(b: bool)
    ensures Atoi(PrintBool(b)) == if b then 1 else 0
  {
    AtoiPrinted(if b then 1 else 0);
  }

  // -------------------------------------------------------------------------
  // The list of explicit inputs
  // -------------------------------------------------------------------------

  function InputText(i: Input): string {
    PrintInt(i.layer) + " " + PrintInt(i.image) + " " + PrintBool(i.blended)
  }

  function InputsText(inputs: seq<Input>): string {
    if inputs == [] then ""
    else if |inputs| == 1 then InputText(inputs[0])
    else InputText(inputs[0]) + " " + InputsText(inputs[1..])
  }

  /** Reads one input.  Files before version 4 carry no image number, and files before
      version 3 no blending flag. */
  function ReadInput(s: string, version: int): (r: Option<(Input, string)>)
    ensures r.Some? ==> |r.value.1| < |s|
  {
    var a := ReadInt(s);
    if a.None? then None
    else
      var b := if version >= 4 then ReadInt(a.value.1) else Some((0, a.value.1));
      if b.None? then None
      else
        var c := if version >= 3 then ReadInt(b.value.1) else Some((1, b.value.1));
        ReadShrinks(s);
        ReadShrinks(a.value.1);
        ReadShrinks(b.value.1);
        if c.None? || c.value.0 < 0 || c.value.0 > 1 then None
        else Some((Input(a.value.0, b.value.0, c.value.0 == 1), c.value.1))
  }

  function ReadInputs(s: string, version: int): seq<Input>
    decreases |s|
  {
    var r := ReadInput(s, version);
    if r.None? then [] else [r.value.0] + ReadInputs(r.value.1, version)
  }

  lemma ReadsInput(i: Input, rest: string, version: int)
    requires Delimited(rest) && version >= 4
    ensures ReadInput(InputText(i) + rest, version) == Some((i, rest))
  {
    var flag := if i.blended then 1 else 0;
    var s3 := " " + PrintInt(flag) + rest;
    var s2 := " " + PrintInt(i.image) + s3;
    PrintedFlag(i.blended);
    ReadsPrinted(flag, rest);
    ReadsPrinted(i.image, s3);
    ReadsPrinted(i.layer, s2);
    InputTextSplits(i, rest);
  }

  lemma PrintedFlag(b: bool)
    ensures PrintBool(b) == PrintInt(if b then 1 else 0)
  {
    assert DigitChar(1) == '1' && DigitChar(0) == '0';
  }

  lemma InputTextSplits(i: Input, rest: string)
    ensures InputText(i) + rest
         == PrintInt(i.layer) + (" " + PrintInt(i.image) + (" " + PrintInt(if i.blended then 1 else 0) + rest))
  {
    PrintedFlag(i.blended);
  }

  lemma {:induction false} SpacedInputs(s: string, version: int)
    ensures ReadInputs(" " + s, version) == ReadInputs(s, version)
  {
    LeadingSpace(s);
  }

  lemma {:induction false} ReadsFirst(i: Input, rest: string, version: int)
    requires Delimited(rest) && version >= 4
    ensures ReadInputs(InputText(i) + rest, version) == [i] + ReadInputs(rest, version)
  {
    ReadsInput(i, rest, version);
  }

  lemma {:induction false} InputsTextSplits(inputs: seq<Input>)
    requires |inputs| > 1
    ensures InputsText(inputs) == InputText(inputs[0]) + (" " + InputsText(inputs[1..]))
  {
    var more := InputsText(inputs[1..]);
    assert InputsText(inputs) == InputText(inputs[0]) + " " + more;
  }

  lemma {:induction false} ReadsInputs(inputs: seq<Input>, version: int)
    requires version >= 4
    ensures ReadInputs(InputsText(inputs), version) == inputs
  {
    if |inputs| == 0 {
      assert ReadInput("", version) == None;
    } else if |inputs| == 1 {
      ReadsFirst(inputs[0], "", version);
      assert InputText(inputs[0]) + "" == InputText(inputs[0]);
      assert ReadInputs("", version) == [];
    } else {
      var more := InputsText(inputs[1..]);
      InputsTextSplits(inputs);
      ReadsFirst(inputs[0], " " + more, version);
      SpacedInputs(more, version);
      ReadsInputs(inputs[1..], version);
      assert inputs == [inputs[0]] + inputs[1..];
    }
  }

  // -------------------------------------------------------------------------
  // Older files
  // -------------------------------------------------------------------------

  /** An input in a file before version 4: the layer and, in version 3, the blending flag. */
  function OldInputText(i: Input, version: int): string {
    PrintInt(i.layer) + if version >= 3 then " " + PrintBool(i.blended) else ""
  }

  function OldInputsText(inputs: seq<Input>, version: int): string {
    if inputs == [] then ""
    else if |inputs| == 1 then OldInputText(inputs[0], version)
    else OldInputText(inputs[0], version) + " " + OldInputsText(inputs[1..], version)
  }

  lemma ReadsOldInput(i: Input, rest: string, version: int)
    requires Delimited(rest) && version < 4
    ensures ReadInput(OldInputText(i, version) + rest, version)
         == Some((Input(i.layer, 0, version < 3 || i.blended), rest))
  {
    var flag := if i.blended then 1 else 0;
    PrintedFlag(i.blended);
    ReadsPrinted(flag, rest);
    ReadsPrinted(i.layer, rest);
    ReadsPrinted(i.layer, " " + PrintInt(flag) + rest);
    assert version >= 3 ==>
      OldInputText(i, version) + rest == PrintInt(i.layer) + (" " + PrintInt(flag) + rest);
    assert version < 3 ==> OldInputText(i, version) + rest == PrintInt(i.layer) + rest;
  }

  lemma {:induction false} ReadsOldFirst(i: Input, rest: string, version: int)
    requires Delimited(rest) && version < 4
    ensures ReadInputs(OldInputText(i, version) + rest, version)
         == [Input(i.layer, 0, version < 3 || i.blended)] + ReadInputs(rest, version)
  {
    ReadsOldInput(i, rest, version);
  }

  /** What the text of an older file stands for. */
  function OldInputs(inputs: seq<Input>, version: int): seq<Input> {
    if inputs == [] then []
    else [AsOldInput(inputs[0], version)] + OldInputs(inputs[1..], version)
  }

  function AsOldInput(i: Input, version: int): Input {
    Input(i.layer, 0, version < 3 || i.blended)
  }

  lemma {:induction false} ReadsOldStep(inputs: seq<Input>, version: int)
    requires version < 4 && inputs != []
    ensures ReadInputs(OldInputsText(inputs, version), version)
         == [AsOldInput(inputs[0], version)] + ReadInputs(OldInputsText(inputs[1..], version), version)
  {
    if |inputs| == 1 {
      ReadsOldFirst(inputs[0], "", version);
      assert OldInputText(inputs[0], version) + "" == OldInputText(inputs[0], version);
      assert inputs[1..] == [];
    } else {
      var more := OldInputsText(inputs[1..], version);
      OldTextSplits(inputs, version);
      ReadsOldFirst(inputs[0], " " + more, version);
      SpacedInputs(more, version);
    }
  }

  lemma {:induction false} OldTextSplits(inputs: seq<Input>, version: int)
    requires |inputs| > 1
    ensures OldInputsText(inputs, version)
         == OldInputText(inputs[0], version) + (" " + OldInputsText(inputs[1..], version))
  {
    var more := OldInputsText(inputs[1..], version);
    assert OldInputsText(inputs, version) == OldInputText(inputs[0], version) + " " + more;
  }

  lemma {:induction false} ReadsOldText(inputs: seq<Input>, version: int)
    requires version < 4
    ensures ReadInputs(OldInputsText(inputs, version), version) == OldInputs(inputs, version)
  {
    if inputs == [] {
      assert ReadInput("", version) == None;
    } else {
      ReadsOldStep(inputs, version);
      ReadsOldText(inputs[1..], version);
    }
  }

  lemma {:induction false} OldInputsAt(inputs: seq<Input>, version: int)
    ensures var r := OldInputs(inputs, version);
            && |r| == |inputs|
            && forall k :: 0 <= k < |r| ==> r[k] == Input(inputs[k].layer, 0, version < 3 || inputs[k].blended)
  {
    if inputs != [] {
      OldInputsAt(inputs[1..], version);
    }
  }

  /** From older files the inputs come back as inputs of the first image, and before version 3 all of
      them as blended ones. */
  lemma {:induction false} ReadsOldInputs(inputs: seq<Input>, version: int)
    requires version < 4
    ensures var r := ReadInputs(OldInputsText(inputs, version), version);
            && |r| == |inputs|
            && forall k :: 0 <= k < |r| ==> r[k] == Input(inputs[k].layer, 0, version < 3 || inputs[k].blended)
  {
    ReadsOldText(inputs, version);
    OldInputsAt(inputs, version);
  }
}
