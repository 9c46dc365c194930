/** What each verb of a format prints, told from the characters of the directive, and how
    a field is laid out. */
module PrintVerbs {
  import opened Base
  import opened Numbers
  import opened Print

  // ----- flags

  predicate IsDigit(c: char) {
    '0' <= c <= '9'
  }

  /** The digits among the flags. */
  ghost function OnlyDigits(flags: string): string {
    if flags == "" then ""
    else
      var c := flags[|flags| - 1];
      OnlyDigits(flags[..|flags| - 1]) + if IsDigit(c) then [c] else ""
  }

  /** A flag is given if its character is there, in any place, and the width is the number
      that all digits together spell. */
  ghost predicate FlagsRead(flags: string, fl: Flags) {
    && (fl.minus <==> '-' in flags) && (fl.longs > 0 <==> 'l' in flags) && (fl.uns <==> 'u' in flags)
    && Value(OnlyDigits(flags), 10) == Some(fl.size)
  }

  lemma {:induction false} FlagsMean(flags: string)
    requires AllFlags(flags)
    ensures FlagsRead(flags, FlagsOf(flags, NO_FLAGS))
  {
    if flags != "" {
      var n := |flags| - 1;
      var c := flags[n];
      FlagsMean(flags[..n]);
      assert flags == flags[..n] + [c];
      OneMoreFlag(flags[..n], c, NO_FLAGS);
      FlagRead(flags[..n], c, FlagsOf(flags[..n], NO_FLAGS));
    }
  }

  lemma FlagRead(flags: string, c: char, fl: Flags)
    requires IsFlag(c) && FlagsRead(flags, fl)
    ensures FlagsRead(flags + [c], WithFlag(fl, c))
  {
    OneMoreDigit(flags, c);
    if IsDigit(c) { ValueBehind(OnlyDigits(flags), c); }
  }

  lemma OneMoreDigit(flags: string, c: char)
    ensures OnlyDigits(flags + [c]) == if IsDigit(c) then OnlyDigits(flags) + [c] else OnlyDigits(flags)
  {
    var all := flags + [c];
    assert all[..|all| - 1] == flags && all[|all| - 1] == c;
  }

  lemma ValueBehind(d: string, c: char)
    requires IsDigit(c) && Value(d, 10).Some?
    ensures Value(d + [c], 10) == Some(Value(d, 10).value * 10 + (c - '0') as nat)
  {
    var all := d + [c];
    assert all[..|all| - 1] == d && all[|all| - 1] == c;
  }

  /** The width as vseprint passes it on: below zero for the left margin. */
  ghost function Width(flags: string): int {
    var n := Value(OnlyDigits(flags), 10);
    if n.None? then 0 else if '-' in flags then 0 - n.value else n.value
  }

  // ----- verbs

  /** The values of int, long and their unsigned forms. */
  ghost predicate InType(v: int, long: bool, unsigned: bool) {
    if long then
      if unsigned then 0 <= v < 0x1_0000_0000_0000_0000 else -0x8000_0000_0000_0000 <= v < 0x8000_0000_0000_0000
    else
      if unsigned then 0 <= v < 0x1_0000_0000 else -0x8000_0000 <= v < 0x8000_0000
  }

  /** v is what is left of the number x in a variable of this type. */
  ghost predicate CutTo(v: int, x: int, long: bool, unsigned: bool) {
    && InType(v, long, unsigned)
    && (InType(x, long, unsigned) ==> v == x)
    && (if long then (x - v) % 0x1_0000_0000_0000_0000 == 0 else (x - v) % 0x1_0000_0000 == 0)
  }

  ghost function Abs(v: int): nat {
    if v < 0 then -v else v
  }

  lemma IntValue(x: int) returns (v: int)
    ensures CutTo(v, x, false, false) && Magnitude(Fetched(x, 0, false), false) == Abs(v)
  {
    var q := (x + 0x8000_0000) / 0x1_0000_0000;
    v := x - q * 0x1_0000_0000;
    assert v == (x + 0x8000_0000) % 0x1_0000_0000 - 0x8000_0000;
  }

  lemma LongValue(x: int) returns (v: int)
    ensures CutTo(v, x, true, false) && Magnitude(Fetched(x, 1, false), false) == Abs(v)
  {
    v := Fetched(x, 1, false);
    if v >= 0x8000_0000_0000_0000 { v := v - 0x1_0000_0000_0000_0000; }
  }

  lemma UnsignedValue(x: int, long: bool) returns (v: int)
    ensures CutTo(v, x, long, true) && Magnitude(Fetched(x, if long then 1 else 0, true), true) == Abs(v)
  {
    v := if long then x % 0x1_0000_0000_0000_0000 else x % 0x1_0000_0000;
  }

  lemma PrintedValue(x: int, longs: nat, uns: bool) returns (v: int)
    ensures CutTo(v, x, longs > 0, uns) && Magnitude(Fetched(x, longs, uns), uns) == Abs(v)
  {
    if uns {
      v := UnsignedValue(x, longs > 0);
    } else if longs > 0 {
      v := LongValue(x);
    } else {
      v := IntValue(x);
    }
  }

  /** The directive with these flags and this verb, and what follows it. */
  ghost function Asked(flags: string, verb: char, tail: string): string {
    "%" + flags + ([verb] + tail)
  }

  lemma DirectivePiece(flags: string, verb: char, tail: string, args: nat -> Arg, k: nat, err: string)
    requires AllFlags(flags) && IsVerb(verb) && !IsFlag(verb)
    ensures VerbText(verb, FlagsOf(flags, NO_FLAGS), args(k), err).Some?
    ensures Pieces(Asked(flags, verb, tail), args, k, err) ==
      [Fld(VerbText(verb, FlagsOf(flags, NO_FLAGS), args(k), err).value, Width(flags))]
      + Pieces(tail, args, if verb == 'r' then k else k + 1, err)
  {
    FlagsMean(flags);
    ScanDirective(flags, [verb] + tail);
    assert ([verb] + tail)[1..] == tail;
  }

  /** A number is printed in decimal for d, octal for o and hexadecimal for x and p, and reads
      back as the absolute value of what the next argument leaves in an int, a long or an
      unsigned one, as the flags say; zero is 00x in hexadecimal. */
  lemma NumberPrinted(flags: string, verb: char, tail: string, args: nat -> Arg, k: nat, err: string)
    returns (text: string, v: int)
    requires AllFlags(flags) && (verb == 'd' || verb == 'o' || verb == 'x' || verb == 'p')
    ensures Pieces(Asked(flags, verb, tail), args, k, err) ==
      [Fld(text, Width(flags))] + Pieces(tail, args, k + 1, err)
    ensures CutTo(v, args(k).num, 'l' in flags, 'u' in flags)
    ensures verb == 'd' ==> Parse(text, 10) == Some(Abs(v)) && Shortest(text, 10)
    ensures verb == 'o' ==> Parse(text, 8) == Some(Abs(v)) && Shortest(text, 8)
    ensures verb == 'x' || verb == 'p' ==> Shortest(text, 16)
    ensures verb == 'x' || verb == 'p' ==> if v == 0 then text == "00x" else Parse(text, 16) == Some(Abs(v))
  {
    var fl := FlagsOf(flags, NO_FLAGS);
    DirectivePiece(flags, verb, tail, args, k, err);
    FlagsMean(flags);
    v := PrintedValue(args(k).num, fl.longs, fl.uns);
    text := VerbText(verb, fl, args(k), err).value;
    var base := if verb == 'd' then 10 else if verb == 'o' then 8 else 16;
    NumberRoundTrip(Abs(v), base);
    NumberIsShortest(Abs(v), base);
    assert text == NumText(Abs(v), base);
    if v == 0 && base == 16 { assert text == "0" + "0x" + ""; }
  }

  /** c prints the one character that the next argument is, cut to eight bits, s the string
      it is, and r the message, which takes no argument. */
  lemma TextPrinted(flags: string, tail: string, args: nat -> Arg, k: nat, err: string)
    requires AllFlags(flags)
    ensures Pieces(Asked(flags, 'c', tail), args, k, err) ==
      [Fld(if args(k).num % 256 == 0 then "" else [(args(k).num % 256) as char], Width(flags))]
      + Pieces(tail, args, k + 1, err)
    ensures Pieces(Asked(flags, 's', tail), args, k, err) ==
      [Fld(args(k).str, Width(flags))] + Pieces(tail, args, k + 1, err)
    ensures Pieces(Asked(flags, 'r', tail), args, k, err) == [Fld(err, Width(flags))] + Pieces(tail, args, k, err)
  {
    DirectivePiece(flags, 'c', tail, args, k, err);
    DirectivePiece(flags, 's', tail, args, k, err);
    DirectivePiece(flags, 'r', tail, args, k, err);
  }

  /** These seven are all the verbs. */
  lemma VerbsExactly(c: char)
    ensures IsVerb(c) <==> c in "dopxcsr"
  {
  }

  /** r, as far as there is room. */
  ghost function CutText(r: string, room: nat): string {
    if |r| <= room then r else r[..room]
  }

  lemma CutBehind(r: string, room: nat)
    requires r != "" && room > 0
    ensures CutText(r, room) == [r[0]] + CutText(r[1..], room - 1)
  {
    assert r == [r[0]] + r[1..];
    if |r| > room { assert r[..room] == [r[0]] + r[1..][..room - 1]; }
  }

  lemma PlainStep(r: string, args: nat -> Arg, k: nat, err: string, room: nat)
    requires r != "" && r[0] != '%' && room > 0
    ensures Render(Pieces(r, args, k, err), room) == [r[0]] + Render(Pieces(r[1..], args, k, err), room - 1)
  {
    LitRendered(r[0], Pieces(r[1..], args, k, err), room);
  }

  lemma LitRendered(c: char, ps: seq<Piece>, room: nat)
    requires room > 0
    ensures Render([Lit(c)] + ps, room) == [c] + Render(ps, room - 1)
  {
    RenderStep(Lit(c), ps, room);
  }

  /** Text without a directive is printed as it is, as far as there is room. */
  lemma {:induction false} TextAsIs(r: string, args: nat -> Arg, k: nat, err: string, room: nat)
    requires '%' !in r
    ensures Render(Pieces(r, args, k, err), room) == CutText(r, room)
  {
    if r != "" && room > 0 {
      TextAsIs(r[1..], args, k, err, room - 1);
      PlainStep(r, args, k, err, room);
      CutBehind(r, room);
    }
  }

  // ----- fields

  /** f is s and blanks, all on one side: behind s for the left margin, else in front. */
  ghost predicate LaidOut(f: string, s: string, left: bool) {
    && |s| <= |f|
    && forall i :: 0 <= i < |f| ==>
         f[i] == if left then (if i < |s| then s[i] else ' ')
                 else if i < |f| - |s| then ' ' else s[i - (|f| - |s|)]
  }

  /** With enough room a field has as many columns as asked for, or more if the string has. */
  lemma PaddedLayout(s: string, size: int)
    ensures LaidOut(Padded(s, size), s, size < 0)
    ensures |Padded(s, size)| == if Abs(size) < |s| then |s| else Abs(size)
  {
  }

  /** With less room there are fewer blanks, and then less of the string. */
  lemma FieldLayout(s: string, size: int, room: nat)
    ensures |s| <= room ==> LaidOut(Field(s, size, room), s, size < 0)
    ensures |s| > room ==> Field(s, size, room) == s[..room]
    ensures |Field(s, size, room)| == if |Padded(s, size)| < room then |Padded(s, size)| else room
  {
    if |s| <= room { assert s[..|s|] == s; }
  }
}
