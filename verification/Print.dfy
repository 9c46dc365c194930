/** Fields, formats and the loop of vseprint (libtask/print.c). */
module Print {
  import opened Base
  import opened Numbers

  // ----- fields

  function Min(a: int, b: int): int { if a < b then a else b }

  function Max(a: int, b: int): int { if a < b then b else a }

  ghost function Spaces(n: nat): string {
    seq(n, i => ' ')
  }

  /** s in a field of |size| columns, left-justified if size is negative. */
  ghost function Padded(s: string, size: int): string {
    var pad := Spaces(Max(|s|, Max(size, -size)) - |s|);
    if size < 0 then s + pad else pad + s
  }

  /** What of it printstr writes when there is room for so many characters. */
  ghost function Field(s: string, size: int, room: nat): string {
    var n := Min(Max(|s|, Max(size, -size)), room);
    var t := s[..Min(|s|, n)];
    var pad := Spaces(n - |t|);
    if size < 0 then t + pad else pad + t
  }

  /** A field that fits is written whole. */
  lemma FieldFits(s: string, size: int, room: nat)
    requires |Padded(s, size)| <= room
    ensures Field(s, size, room) == Padded(s, size)
  {
    assert s[..|s|] == s;
  }

  /** A field that does not fit fills the room. */
  lemma FieldFills(s: string, size: int, room: nat)
    requires |Padded(s, size)| > room
    ensures |Field(s, size, room)| == room
  {
  }

  /** A string that fits is never cut: a field too wide loses blanks only. */
  lemma FieldKeeps(s: string, size: int, room: nat)
    requires |s| <= room
    ensures var f := Field(s, size, room);
      |s| <= |f| && s == if size < 0 then f[..|s|] else f[|f| - |s|..]
  {
    assert s[..|s|] == s;
  }

  method PrintStr(buf: array<char>, dst: nat, edst: nat, s: string, size: int) returns (end: nat)
    requires edst <= buf.Length
    modifies buf
    ensures dst >= edst ==> end == dst && buf[..] == old(buf[..])
    ensures dst < edst ==>
      var f := Field(s, size, edst - dst - 1);
      end == dst + |f| < edst && buf[..] == old(buf[..dst]) + f + old(buf[end..])
  {
    var width, sign := size, 1;
    if width < 0 {
      width := -width;
      sign := -1;
    }
    if dst >= edst {
      return dst;
    }
    var l, n := |s|, |s|;
    if n < width {
      n := width;
    }
    if n >= edst - dst {
      n := edst - dst - 1;
    }
    if l > n {
      l := n;
    }
    end := dst + n;
    if sign < 0 {
      MoveBoth(buf, dst, s[..l], Blanks(n - l));
    } else {
      MoveBoth(buf, dst, Blanks(n - l), s[..l]);
    }
  }

  method MoveBoth(buf: array<char>, at: nat, s: string, t: string)
    requires at + |s + t| <= buf.Length
    modifies buf
    ensures buf[..] == old(buf[..at]) + (s + t) + old(buf[at + |s + t|..])
  {
    ghost var was := buf[..];
    Move(buf, at, s);
    Move(buf, at + |s|, t);
    TwoMoves(was, at, s, t);
  }

  lemma TwoMoves(was: string, at: nat, s: string, t: string)
    requires at + |s + t| <= |was|
    ensures var one := was[..at] + s + was[at + |s|..];
      one[..at + |s|] + t + one[at + |s| + |t|..] == was[..at] + (s + t) + was[at + |s + t|..]
  {
  }

  function Blanks(n: nat): (s: string)
    ensures s == Spaces(n)
  {
    if n == 0 then "" else Blanks(n - 1) + " "
  }

  /** memmove and memset. */
  method Move(buf: array<char>, at: nat, s: string)
    requires at + |s| <= buf.Length
    modifies buf
    ensures buf[..] == old(buf[..at]) + s + old(buf[at + |s|..])
  {
    for i := 0 to |s|
      invariant buf[..] == old(buf[..at]) + s[..i] + old(buf[at + i..])
    {
      buf[at + i] := s[i];
    }
  }

  // ----- formats

  /** The next variadic argument, read as a number or as a string. */
  datatype Arg = Arg(num: int, str: string)

  /** What a format asks for: a character, or a string in a field. */
  datatype Piece = Lit(c: char) | Fld(s: string, size: int)

  datatype Flags = Flags(size: nat, minus: bool, longs: nat, uns: bool) {
    function Columns(): int {
      if minus then 0 - size else size
    }
  }

  const NO_FLAGS := Flags(0, false, 0, false)

  predicate IsFlag(c: char) {
    c == '-' || '0' <= c <= '9' || c == 'l' || c == 'u'
  }

  ghost predicate AllFlags(flags: string) {
    forall i :: 0 <= i < |flags| ==> IsFlag(flags[i])
  }

  function WithFlag(fl: Flags, c: char): Flags
    requires IsFlag(c)
  {
    if c == '-' then fl.(minus := true)
    else if c == 'l' then fl.(longs := fl.longs + 1)
    else if c == 'u' then fl.(uns := true)
    else fl.(size := fl.size * 10 + (c - '0') as nat)
  }

  /** The flags at the front of r, added to fl, and what is behind them. */
  ghost function Scan(r: string, fl: Flags): (res: (Flags, string))
    ensures |res.1| <= |r|
  {
    if r != "" && IsFlag(r[0]) then Scan(r[1..], WithFlag(fl, r[0])) else (fl, r)
  }

  function BaseOf(verb: char): Option<nat> {
    if verb == 'd' then Some(10)
    else if verb == 'o' then Some(8)
    else if verb == 'p' || verb == 'x' then Some(16)
    else None
  }

  /** The text for a verb, if it is one; err is the message for errno. */
  ghost function VerbText(verb: char, fl: Flags, arg: Arg, err: string): Option<string> {
    if BaseOf(verb).Some? then
      Some(NumText(Magnitude(Fetched(arg.num, fl.longs, fl.uns), fl.uns), BaseOf(verb).value))
    else if verb == 'c' then Some(CharText(arg.num))
    else if verb == 's' then Some(arg.str)
    else if verb == 'r' then Some(err)
    else None
  }

  /** The one character of an int, cut to a char; empty for NUL. */
  function CharText(v: int): string {
    if v % 256 == 0 then "" else [(v % 256) as char]
  }

  ghost function Lits(s: string): seq<Piece> {
    if s == "" then [] else [Lit(s[0])] + Lits(s[1..])
  }

  /** The pieces of the rest r of a format, when k arguments have been used. An unknown
      verb prints its message in place of itself and all that follows it. */
  ghost function Pieces(r: string, args: nat -> Arg, k: nat, err: string): seq<Piece>
    decreases |r|
  {
    if r == "" then []
    else if r[0] != '%' then [Lit(r[0])] + Pieces(r[1..], args, k, err)
    else
      var (fl, t) := Scan(r[1..], NO_FLAGS);
      if t == "" then []
      else
        var text := VerbText(t[0], fl, args(k), err);
        if text.None? then Lits("*verb*")
        else [Fld(text.value, fl.Columns())] + Pieces(t[1..], args, if t[0] == 'r' then k else k + 1, err)
  }

  /** With this room, the loops go on behind the end of the rest r of a format: they do
      when the flags of a directive they reach end there. */
  ghost predicate Overruns(r: string, args: nat -> Arg, k: nat, err: string, room: nat)
    decreases |r|
  {
    r != "" && room > 0 &&
    if r[0] != '%' then Overruns(r[1..], args, k, err, room - 1)
    else
      var (fl, t) := Scan(r[1..], NO_FLAGS);
      t == "" ||
      var text := VerbText(t[0], fl, args(k), err);
      text.Some? &&
      Overruns(t[1..], args, if t[0] == 'r' then k else k + 1, err, room - |Field(text.value, fl.Columns(), room)|)
  }

  predicate IsVerb(c: char) {
    BaseOf(c).Some? || c == 'c' || c == 's' || c == 'r'
  }

  ghost function PieceText(x: Piece, room: nat): (t: string)
    ensures room > 0 ==> |t| <= room
  {
    match x
    case Lit(c) => [c]
    case Fld(s, size) => Field(s, size, room)
  }

  /** The output of the pieces where there is room for so many characters. */
  ghost function Render(ps: seq<Piece>, room: nat): (out: string)
    ensures |out| <= room
  {
    if ps == [] || room == 0 then ""
    else
      var t := PieceText(ps[0], room);
      t + Render(ps[1..], room - |t|)
  }

  ghost function FullText(x: Piece): string {
    match x
    case Lit(c) => [c]
    case Fld(s, size) => Padded(s, size)
  }

  /** The output with room for everything. */
  ghost function Full(ps: seq<Piece>): string {
    if ps == [] then "" else FullText(ps[0]) + Full(ps[1..])
  }

  /** Output that fits comes out whole. */
  lemma {:induction false} RenderFits(ps: seq<Piece>, room: nat)
    requires |Full(ps)| <= room
    ensures Render(ps, room) == Full(ps)
  {
    if ps != [] {
      if ps[0].Fld? { FieldFits(ps[0].s, ps[0].size, room); }
      if room > 0 { RenderFits(ps[1..], room - |FullText(ps[0])|); }
    }
  }

  /** Output that does not fit fills the room. */
  lemma {:induction false} RenderFills(ps: seq<Piece>, room: nat)
    requires |Full(ps)| > room
    ensures |Render(ps, room)| == room
  {
    if room > 0 {
      var x := ps[0];
      if x.Fld? {
        if |FullText(x)| <= room { FieldFits(x.s, x.size, room); } else { FieldFills(x.s, x.size, room); }
      }
      if |FullText(x)| <= room { RenderFills(ps[1..], room - |FullText(x)|); }
    }
  }

  ghost predicate Clean(x: Piece) {
    match x
    case Lit(c) => c != NUL
    case Fld(s, _) => CString(s)
  }

  /** Output of pieces without a NUL has none, so the NUL behind it is where it ends. */
  lemma {:induction false} RenderClean(ps: seq<Piece>, room: nat)
    requires forall i :: 0 <= i < |ps| ==> Clean(ps[i])
    ensures CString(Render(ps, room))
  {
    if ps != [] && room > 0 {
      assert CString(PieceText(ps[0], room)) by { assert Clean(ps[0]); }
      RenderClean(ps[1..], room - |PieceText(ps[0], room)|);
    }
  }

  /** Blanks in front: a right-justified string in a field wider than itself. */
  predicate PadsLeft(x: Piece) {
    x.Fld? && x.size > |x.s|
  }

  ghost predicate Blank(s: string) {
    forall i :: 0 <= i < |s| ==> s[i] == ' '
  }

  /** The piece that is cut inside, and the room there was for it. */
  ghost function CutPiece(ps: seq<Piece>, room: nat): (o: Option<(Piece, nat)>)
    ensures o.Some? ==> 0 < o.value.1 < |FullText(o.value.0)|
  {
    if ps == [] || room == 0 then None
    else if |FullText(ps[0])| > room then Some((ps[0], room))
    else CutPiece(ps[1..], room - |FullText(ps[0])|)
  }

  /** t is, as far as it goes, what follows when d blanks are put in front of it. */
  ghost predicate Shifted(t: string, d: nat) {
    && (forall j :: 0 <= j < |t| && j < d ==> t[j] == ' ')
    && (forall j :: d <= j < |t| ==> t[j] == t[j - d])
  }

  lemma {:induction false} ShiftedBlank(t: string, d: nat, n: nat)
    requires 0 < d && n <= |t| && Shifted(t, d)
    ensures forall i :: 0 <= i < n ==> t[i] == ' '
  {
    if n > 0 {
      ShiftedBlank(t, d, n - 1);
      assert d <= n - 1 ==> t[n - 1] == t[n - 1 - d];
    }
  }

  /** A string with k blanks in front begins like one with k + d blanks. */
  lemma MoreBlanks(t: string, u: string, k: nat, d: nat)
    requires t <= u
    ensures Spaces(k) + t <= Spaces(k + d) + u <==> Shifted(t, d)
  {
    var f, w := Spaces(k) + t, Spaces(k + d) + u;
    assert |f| <= |w|;
    if Shifted(t, d) {
      forall i | 0 <= i < |f| ensures f[i] == w[i] {
        if i >= k + d { assert t[i - k] == t[i - k - d]; } else if i >= k { assert t[i - k] == ' '; }
      }
    }
    if f <= w {
      forall j | 0 <= j < |t| && j < d ensures t[j] == ' ' { assert f[k + j] == w[k + j]; }
      forall j | d <= j < |t| ensures t[j] == t[j - d] { assert f[k + j] == w[k + j] == u[j - d]; }
    }
  }

  /** A piece that is cut begins like the whole exactly if it has no blanks in front or
      shows nothing but blanks. */
  lemma PiecePrefix(x: Piece, room: nat)
    requires 0 < room < |FullText(x)|
    ensures PieceText(x, room) <= FullText(x) <==> !PadsLeft(x) || Blank(x.s[..Min(|x.s|, room)])
  {
    if PadsLeft(x) {
      var t := x.s[..Min(|x.s|, room)];
      var k := room - |t|;
      var d := x.size - |x.s| - k;
      MoreBlanks(t, x.s, k, d);
      if Shifted(t, d) { ShiftedBlank(t, d, |t|); }
    }
  }

  /** Output is cut at its end only exactly if no piece is cut inside, or the one that is
      has no blanks in front, or shows nothing but blanks. */
  lemma {:induction false} RenderPrefix(ps: seq<Piece>, room: nat)
    ensures var o := CutPiece(ps, room);
      Render(ps, room) <= Full(ps) <==>
        o.None? || !PadsLeft(o.value.0) || Blank(o.value.0.s[..Min(|o.value.0.s|, o.value.1)])
  {
    if ps != [] && room > 0 {
      if |FullText(ps[0])| > room {
        CutInside(ps, room);
        PiecePrefix(ps[0], room);
      } else {
        RenderPrefix(ps[1..], room - |FullText(ps[0])|);
        CutLater(ps, room);
      }
    }
  }

  lemma CutInside(ps: seq<Piece>, room: nat)
    requires ps != [] && 0 < room < |FullText(ps[0])|
    ensures Render(ps, room) <= Full(ps) <==> PieceText(ps[0], room) <= FullText(ps[0])
  {
    var x := ps[0];
    FieldFills(x.s, x.size, room);
    PrefixCut(PieceText(x, room), FullText(x), Full(ps[1..]));
  }

  lemma CutLater(ps: seq<Piece>, room: nat)
    requires ps != [] && |FullText(ps[0])| <= room && 0 < room
    ensures Render(ps, room) <= Full(ps) <==> Render(ps[1..], room - |FullText(ps[0])|) <= Full(ps[1..])
  {
    var t := FullText(ps[0]);
    WholePiece(ps[0], room);
    PrefixBehind(Render(ps, room), Full(ps), t, Render(ps[1..], room - |t|), Full(ps[1..]));
  }

  lemma WholePiece(x: Piece, room: nat)
    requires |FullText(x)| <= room
    ensures PieceText(x, room) == FullText(x)
  {
    if x.Fld? { FieldFits(x.s, x.size, room); }
  }

  lemma PrefixCut(t: string, a: string, b: string)
    requires |t| <= |a|
    ensures t + "" <= a + b <==> t <= a
  {
    assert t + "" == t;
    if t <= a + b { assert t == (a + b)[..|t|] == a[..|t|]; }
  }

  lemma PrefixBehind(s: string, t: string, a: string, b: string, c: string)
    requires s == a + b && t == a + c
    ensures s <= t <==> b <= c
  {
    if s <= t { assert b == s[|a|..] == t[..|s|][|a|..] == c[..|b|]; }
  }

  /** With blanks in front it need not be: they are cut before the string is. */
  lemma CutInFront()
    ensures Render([Fld("ab", 5)], 3) == " ab" && Full([Fld("ab", 5)]) == "   ab"
  {
    assert Render([Fld("ab", 5)][1..], 0) == "";
    assert Full([Fld("ab", 5)][1..]) == "";
    assert "ab"[..2] == "ab";
  }

  lemma VerbTextClean(verb: char, fl: Flags, arg: Arg, err: string)
    requires CString(arg.str) && CString(err) && VerbText(verb, fl, arg, err).Some?
    ensures CString(VerbText(verb, fl, arg, err).value)
  {
    if BaseOf(verb).Some? {
      DigitsCString(Magnitude(Fetched(arg.num, fl.longs, fl.uns), fl.uns), BaseOf(verb).value);
    }
  }

  lemma {:induction false} ScanClean(r: string, fl: Flags)
    requires CString(r)
    ensures CString(Scan(r, fl).1)
  {
    if r != "" && IsFlag(r[0]) { ScanClean(r[1..], WithFlag(fl, r[0])); }
  }

  /** A format, arguments and a message without a NUL make such pieces. */
  lemma {:induction false} PiecesClean(r: string, args: nat -> Arg, k: nat, err: string)
    requires CString(r) && CString(err) && forall i :: CString(args(i).str)
    ensures forall i :: 0 <= i < |Pieces(r, args, k, err)| ==> Clean(Pieces(r, args, k, err)[i])
    decreases |r|
  {
    if r != "" && r[0] != '%' {
      PiecesClean(r[1..], args, k, err);
    } else if r != "" {
      var (fl, t) := Scan(r[1..], NO_FLAGS);
      if t != "" {
        if VerbText(t[0], fl, args(k), err).Some? {
          ScanClean(r[1..], NO_FLAGS);
          VerbTextClean(t[0], fl, args(k), err);
          PiecesClean(t[1..], args, if t[0] == 'r' then k else k + 1, err);
        }
      }
    }
  }

  /** What vseprint writes in front of its NUL is a C string, if the format, the argument
      strings and the message are. */
  lemma OutputIsCString(fmt: string, args: nat -> Arg, err: string, room: nat)
    requires CString(fmt) && CString(err) && forall i :: CString(args(i).str)
    ensures CString(Render(Pieces(fmt, args, 0, err), room))
  {
    PiecesClean(fmt, args, 0, err);
    RenderClean(Pieces(fmt, args, 0, err), room);
  }

  // ----- what formats mean

  /** An ordinary character, or a directive. */
  datatype Item = Ordinary(c: char) | Directive(flags: string, verb: char)

  ghost predicate ItemOK(x: Item) {
    match x
    case Ordinary(c) => c != '%'
    case Directive(flags, verb) => IsVerb(verb) && AllFlags(flags)
  }

  ghost predicate ItemsOK(xs: seq<Item>) {
    forall i :: 0 <= i < |xs| ==> ItemOK(xs[i])
  }

  ghost function Spell(x: Item): string {
    match x
    case Ordinary(c) => [c]
    case Directive(flags, verb) => "%" + flags + [verb]
  }

  ghost function Format(xs: seq<Item>): string {
    if xs == [] then "" else Spell(xs[0]) + Format(xs[1..])
  }

  ghost function FlagsOf(flags: string, fl: Flags): Flags
    requires AllFlags(flags)
  {
    if flags == "" then fl else FlagsOf(flags[1..], WithFlag(fl, flags[0]))
  }

  /** What the item prints, when k arguments have been used. */
  ghost function PieceOf(x: Item, args: nat -> Arg, k: nat, err: string): Piece
    requires ItemOK(x)
  {
    match x
    case Ordinary(c) => Lit(c)
    case Directive(flags, verb) =>
      var fl := FlagsOf(flags, NO_FLAGS);
      Fld(VerbText(verb, fl, args(k), err).value, fl.Columns())
  }

  function Used(x: Item, k: nat): nat {
    if x.Directive? && x.verb != 'r' then k + 1 else k
  }

  ghost function Meaning(xs: seq<Item>, args: nat -> Arg, k: nat, err: string): seq<Piece>
    requires ItemsOK(xs)
  {
    if xs == [] then [] else [PieceOf(xs[0], args, k, err)] + Meaning(xs[1..], args, Used(xs[0], k), err)
  }

  function UsedAll(xs: seq<Item>, k: nat): nat {
    if xs == [] then k else UsedAll(xs[1..], Used(xs[0], k))
  }

  lemma {:induction false} OneMoreFlag(flags: string, c: char, fl: Flags)
    requires IsFlag(c) && AllFlags(flags)
    ensures FlagsOf(flags + [c], fl) == WithFlag(FlagsOf(flags, fl), c)
  {
    if flags != "" {
      assert (flags + [c])[1..] == flags[1..] + [c];
      OneMoreFlag(flags[1..], c, WithFlag(fl, flags[0]));
    } else {
      assert (flags + [c])[1..] == "";
    }
  }

  /** The digits of a number, as flags, ask for that many columns, and with
      a minus sign in front for the left margin. */
  lemma {:induction false} WidthRoundTrip(n: nat)
    ensures forall i :: 0 <= i < |DigitsOf(n, 10)| ==> IsFlag(DigitsOf(n, 10)[i])
    ensures FlagsOf(DigitsOf(n, 10), NO_FLAGS) == NO_FLAGS.(size := n)
    ensures FlagsOf("-" + DigitsOf(n, 10), NO_FLAGS).Columns() == 0 - n
  {
    WidthFrom(n, NO_FLAGS);
    WidthFrom(n, NO_FLAGS.(minus := true));
    Behind('-', DigitsOf(n, 10));
  }

  lemma {:induction false} WidthFrom(n: nat, fl: Flags)
    requires fl.size == 0
    ensures forall i :: 0 <= i < |DigitsOf(n, 10)| ==> IsFlag(DigitsOf(n, 10)[i])
    ensures FlagsOf(DigitsOf(n, 10), fl) == fl.(size := n)
  {
    if n > 0 {
      LastDigit(n, 10);
      WidthFrom(n / 10, fl);
      var s := DigitsOf(n, 10);
      var c := s[|s| - 1];
      DecimalFlag(n % 10);
      assert s == DigitsOf(n / 10, 10) + [c];
      OneMoreFlag(DigitsOf(n / 10, 10), c, fl);
    }
  }

  lemma DecimalFlag(d: nat)
    requires d < 10
    ensures IsFlag(DIGITS[d]) && '0' <= DIGITS[d] <= '9' && (DIGITS[d] - '0') as nat == d
  {
  }

  lemma {:induction false} ScanFlags(flags: string, tail: string, fl: Flags)
    requires AllFlags(flags)
    requires tail == "" || !IsFlag(tail[0])
    ensures Scan(flags + tail, fl) == (FlagsOf(flags, fl), tail)
  {
    if flags == "" {
      assert flags + tail == tail;
    } else {
      assert (flags + tail)[1..] == flags[1..] + tail;
      ScanFlags(flags[1..], tail, WithFlag(fl, flags[0]));
    }
  }

  lemma ScanDirective(flags: string, tail: string)
    requires AllFlags(flags)
    requires tail == "" || !IsFlag(tail[0])
    ensures var r := "%" + flags + tail;
      r[0] == '%' && Scan(r[1..], NO_FLAGS) == (FlagsOf(flags, NO_FLAGS), tail)
  {
    Regroup("%", flags, tail);
    Behind('%', flags + tail);
    ScanFlags(flags, tail, NO_FLAGS);
  }

  lemma Behind(c: char, r: string)
    ensures ([c] + r)[0] == c && ([c] + r)[1..] == r
  {
  }

  lemma ItemMeans(x: Item, tail: string, args: nat -> Arg, k: nat, err: string)
    requires ItemOK(x)
    ensures Pieces(Spell(x) + tail, args, k, err) == [PieceOf(x, args, k, err)] + Pieces(tail, args, Used(x, k), err)
  {
    match x
    case Ordinary(c) =>
      assert ([c] + tail)[1..] == tail;
    case Directive(flags, verb) =>
      assert Spell(x) + tail == "%" + flags + ([verb] + tail);
      ScanDirective(flags, [verb] + tail);
      assert ([verb] + tail)[1..] == tail;
  }

  /** A format that begins with some items prints these, and then what follows. */
  lemma {:induction false} FormatMeans(xs: seq<Item>, tail: string, args: nat -> Arg, k: nat, err: string)
    requires ItemsOK(xs)
    ensures Pieces(Format(xs) + tail, args, k, err)
      == Meaning(xs, args, k, err) + Pieces(tail, args, UsedAll(xs, k), err)
  {
    if xs == [] {
      assert "" + tail == tail;
    } else {
      var x, rest := xs[0], Format(xs[1..]) + tail;
      Regroup(Spell(x), Format(xs[1..]), tail);
      ItemMeans(x, rest, args, k, err);
      FormatMeans(xs[1..], tail, args, Used(x, k), err);
      Regroup([PieceOf(x, args, k, err)], Meaning(xs[1..], args, Used(x, k), err),
        Pieces(tail, args, UsedAll(xs, k), err));
    }
  }

  /** A format of items only. */
  lemma ItemsOnly(xs: seq<Item>, args: nat -> Arg, err: string)
    requires ItemsOK(xs)
    ensures Pieces(Format(xs), args, 0, err) == Meaning(xs, args, 0, err)
  {
    FormatMeans(xs, "", args, 0, err);
    assert Format(xs) + "" == Format(xs);
  }

  /** An unknown verb: whatever follows it is lost. */
  lemma UnknownVerb(xs: seq<Item>, flags: string, verb: char, tail: string, args: nat -> Arg, err: string)
    requires ItemsOK(xs) && AllFlags(flags) && !IsFlag(verb) && !IsVerb(verb)
    ensures Pieces(Format(xs) + ("%" + flags + ([verb] + tail)), args, 0, err)
      == Meaning(xs, args, 0, err) + Lits("*verb*")
  {
    FormatMeans(xs, "%" + flags + ([verb] + tail), args, 0, err);
    ScanDirective(flags, [verb] + tail);
  }

  /** A directive without a verb at the end of the format prints nothing. */
  lemma CutOff(xs: seq<Item>, flags: string, args: nat -> Arg, err: string)
    requires ItemsOK(xs) && AllFlags(flags)
    ensures Pieces(Format(xs) + ("%" + flags), args, 0, err) == Meaning(xs, args, 0, err)
  {
    FormatMeans(xs, "%" + flags, args, 0, err);
    ScanDirective(flags, "");
    assert "%" + flags + "" == "%" + flags;
  }

  /** How a format ends: with an item, with an unknown verb and more behind it, or with a
      directive that is cut off. */
  datatype Ending = Complete | Unknown(flags: string, verb: char, tail: string) | Cut(flags: string)

  ghost function SpellEnding(e: Ending): string {
    match e
    case Complete => ""
    case Unknown(flags, verb, tail) => "%" + flags + ([verb] + tail)
    case Cut(flags) => "%" + flags
  }

  ghost predicate EndingOK(e: Ending) {
    match e
    case Complete => true
    case Unknown(flags, verb, _) => AllFlags(flags) && !IsFlag(verb) && !IsVerb(verb)
    case Cut(flags) => AllFlags(flags)
  }

  lemma SplitChar(f: string)
    requires f != "" && f[0] != '%'
    ensures ItemOK(Ordinary(f[0])) && f == Spell(Ordinary(f[0])) + f[1..]
  {
  }

  lemma SplitDirective(f: string, flags: string, tail: string)
    requires f != "" && f[0] == '%' && f[1..] == flags + tail && tail != "" && IsVerb(tail[0]) && AllFlags(flags)
    ensures ItemOK(Directive(flags, tail[0])) && f == Spell(Directive(flags, tail[0])) + tail[1..]
  {
    assert f == "%" + f[1..];
    Regroup("%", flags, tail);
    Regroup("%" + flags, [tail[0]], tail[1..]);
    assert tail == [tail[0]] + tail[1..];
  }

  lemma SplitEnding(f: string, flags: string, tail: string) returns (e: Ending)
    requires f != "" && f[0] == '%' && f[1..] == flags + tail && AllFlags(flags)
    requires tail == "" || (!IsFlag(tail[0]) && !IsVerb(tail[0]))
    ensures EndingOK(e) && f == SpellEnding(e)
  {
    assert f == "%" + f[1..];
    if tail == "" {
      e := Cut(flags);
      assert flags + tail == flags;
    } else {
      e := Unknown(flags, tail[0], tail[1..]);
      assert tail == [tail[0]] + tail[1..];
      Regroup("%", flags, tail);
    }
  }

  lemma ItemInFront(x: Item, xs: seq<Item>, ending: string)
    requires ItemOK(x) && ItemsOK(xs)
    ensures ItemsOK([x] + xs) && Format([x] + xs) + ending == Spell(x) + (Format(xs) + ending)
  {
    assert ([x] + xs)[1..] == xs;
    Regroup(Spell(x), Format(xs), ending);
  }

  /** Every format is a list of items and one of the endings. */
  lemma {:induction false} FormatKinds(f: string) returns (xs: seq<Item>, e: Ending)
    ensures ItemsOK(xs) && EndingOK(e) && f == Format(xs) + SpellEnding(e)
    decreases |f|
  {
    if f == "" {
      xs, e := [], Complete;
    } else if f[0] != '%' {
      SplitChar(f);
      xs, e := FormatKinds(f[1..]);
      ItemInFront(Ordinary(f[0]), xs, SpellEnding(e));
      xs := [Ordinary(f[0])] + xs;
    } else {
      var flags, tail := ScanSplits(f[1..], NO_FLAGS);
      if tail == "" || !IsVerb(tail[0]) {
        xs := [];
        e := SplitEnding(f, flags, tail);
        assert Format([]) + SpellEnding(e) == SpellEnding(e);
      } else {
        SplitDirective(f, flags, tail);
        var x := Directive(flags, tail[0]);
        xs, e := FormatKinds(tail[1..]);
        ItemInFront(x, xs, SpellEnding(e));
        xs := [x] + xs;
      }
    }
  }

  /** What any format prints: its items, and the message of an unknown verb. */
  lemma FormatPrints(f: string, args: nat -> Arg, err: string) returns (xs: seq<Item>, e: Ending)
    ensures ItemsOK(xs) && EndingOK(e) && f == Format(xs) + SpellEnding(e)
    ensures Pieces(f, args, 0, err) == Meaning(xs, args, 0, err) + if e.Unknown? then Lits("*verb*") else []
  {
    xs, e := FormatKinds(f);
    match e
    case Complete =>
      assert Format(xs) + "" == Format(xs);
      ItemsOnly(xs, args, err);
    case Unknown(flags, verb, tail) => UnknownVerb(xs, flags, verb, tail, args, err);
    case Cut(flags) => CutOff(xs, flags, args, err);
  }

  lemma {:induction false} ScanSplits(r: string, fl: Flags) returns (flags: string, tail: string)
    ensures r == flags + tail && tail == Scan(r, fl).1
    ensures AllFlags(flags) && (tail == "" || !IsFlag(tail[0]))
    decreases |r|
  {
    if r != "" && IsFlag(r[0]) {
      flags, tail := ScanSplits(r[1..], WithFlag(fl, r[0]));
      flags := [r[0]] + flags;
    } else {
      flags, tail := "", r;
    }
  }

  // ----- where the end of a format is overrun

  lemma PieceLength(x: Piece, room: nat)
    requires room > 0
    ensures |PieceText(x, room)| == Min(|FullText(x)|, room)
  {
    if x.Fld? {
      if |FullText(x)| <= room { FieldFits(x.s, x.size, room); } else { FieldFills(x.s, x.size, room); }
    }
  }

  lemma ItemOverruns(x: Item, tail: string, args: nat -> Arg, k: nat, err: string, room: nat)
    requires ItemOK(x) && room > 0
    ensures Overruns(Spell(x) + tail, args, k, err, room) <==>
      Overruns(tail, args, Used(x, k), err, room - |PieceText(PieceOf(x, args, k, err), room)|)
  {
    match x
    case Ordinary(c) =>
      assert ([c] + tail)[1..] == tail;
    case Directive(flags, verb) =>
      assert Spell(x) + tail == "%" + flags + ([verb] + tail);
      ScanDirective(flags, [verb] + tail);
      assert ([verb] + tail)[1..] == tail;
  }

  /** f is some items and a directive that is cut off, and there is room for more than
      the items print. */
  ghost predicate CutReached(f: string, xs: seq<Item>, flags: string, args: nat -> Arg, k: nat, err: string,
    room: nat) {
    ItemsOK(xs) && AllFlags(flags) && f == Format(xs) + ("%" + flags) && |Full(Meaning(xs, args, k, err))| < room
  }

  lemma {:induction false} ReachedOverruns(xs: seq<Item>, flags: string, args: nat -> Arg, k: nat, err: string,
    room: nat)
    requires ItemsOK(xs) && AllFlags(flags) && |Full(Meaning(xs, args, k, err))| < room
    ensures Overruns(Format(xs) + ("%" + flags), args, k, err, room)
  {
    if xs == [] {
      ScanDirective(flags, "");
      assert "%" + flags + "" == "%" + flags == "" + ("%" + flags);
    } else {
      var x, rest := xs[0], Format(xs[1..]) + ("%" + flags);
      var piece := PieceOf(x, args, k, err);
      assert Meaning(xs, args, k, err)[1..] == Meaning(xs[1..], args, Used(x, k), err);
      PieceLength(piece, room);
      ReachedOverruns(xs[1..], flags, args, Used(x, k), err, room - |FullText(piece)|);
      ItemOverruns(x, rest, args, k, err, room);
      Regroup(Spell(x), Format(xs[1..]), "%" + flags);
    }
  }

  lemma ReachedBehind(x: Item, f: string, xs: seq<Item>, flags: string, args: nat -> Arg, k: nat, err: string,
    room: nat)
    requires ItemOK(x) && room > 0
    requires CutReached(f, xs, flags, args, Used(x, k), err, room - |PieceText(PieceOf(x, args, k, err), room)|)
    ensures CutReached(Spell(x) + f, [x] + xs, flags, args, k, err, room)
  {
    var piece, rest := PieceOf(x, args, k, err), Meaning(xs, args, Used(x, k), err);
    ItemInFront(x, xs, "%" + flags);
    assert ([x] + xs)[1..] == xs;
    assert ([piece] + rest)[1..] == rest;
    PieceLength(piece, room);
  }

  lemma {:induction false} OverrunReaches(r: string, args: nat -> Arg, k: nat, err: string, room: nat)
    returns (xs: seq<Item>, flags: string)
    requires Overruns(r, args, k, err, room)
    ensures CutReached(r, xs, flags, args, k, err, room)
    decreases |r|
  {
    var x, rest;
    if r[0] != '%' {
      SplitChar(r);
      x, rest := Ordinary(r[0]), r[1..];
    } else {
      var tail;
      flags, tail := ScanSplits(r[1..], NO_FLAGS);
      if tail == "" {
        xs := [];
        assert r == "%" + r[1..] && flags + tail == flags && "" + ("%" + flags) == "%" + flags;
        return;
      }
      SplitDirective(r, flags, tail);
      x, rest := Directive(flags, tail[0]), tail[1..];
    }
    ItemOverruns(x, rest, args, k, err, room);
    xs, flags := OverrunReaches(rest, args, Used(x, k), err, room - |PieceText(PieceOf(x, args, k, err), room)|);
    ReachedBehind(x, rest, xs, flags, args, k, err, room);
    xs := [x] + xs;
  }

  /** The end of a format is overrun exactly if the format is some items and a directive
      that is cut off, and there is room for more than the items print. */
  lemma OverrunExact(f: string, args: nat -> Arg, err: string, room: nat)
    ensures Overruns(f, args, 0, err, room) <==> exists xs, flags :: CutReached(f, xs, flags, args, 0, err, room)
  {
    if Overruns(f, args, 0, err, room) {
      var xs, flags := OverrunReaches(f, args, 0, err, room);
    }
    if xs, flags :| CutReached(f, xs, flags, args, 0, err, room) {
      ReachedOverruns(xs, flags, args, 0, err, room);
    }
  }

  /** A format that overruns with a certain room, and not with less. */
  lemma OverrunWitness(args: nat -> Arg, err: string)
    ensures Overruns("ab%", args, 0, err, 3) && !Overruns("ab%", args, 0, err, 2)
  {
    assert "ab%"[1..] == "b%" && "b%"[1..] == "%" && "%"[1..] == "";
  }

  // ----- vseprint

  /** The loop over the flags of a directive. */
  method ReadFlags(f: string, start: nat) returns (p: nat, fl: Flags)
    requires start <= |f|
    ensures start <= p <= |f| && Scan(f[start..], NO_FLAGS) == (fl, f[p..])
  {
    p, fl := start, NO_FLAGS;
    while p < |f| && IsFlag(f[p])
      invariant start <= p <= |f| && Scan(f[start..], NO_FLAGS) == Scan(f[p..], fl)
    {
      assert f[p..][1..] == f[p + 1..];
      fl := WithFlag(fl, f[p]);
      p := p + 1;
    }
  }

  /** The text for a verb. */
  method Convert(verb: char, fl: Flags, arg: Arg, err: string) returns (text: Option<string>)
    ensures text == VerbText(verb, fl, arg, err)
  {
    var base := BaseOf(verb);
    if base.Some? {
      var buf := new char[30];
      var p := FormatNumber(Magnitude(Fetched(arg.num, fl.longs, fl.uns), fl.uns), base.value, buf);
      text := Some(buf[p..29]);
    } else if verb == 'c' {
      text := Some(CharText(arg.num));
    } else if verb == 's' {
      text := Some(arg.str);
    } else if verb == 'r' {
      text := Some(err);
    } else {
      text := None;
    }
  }

  /** The rest of the output after a first piece. */
  lemma RenderStep(x: Piece, ps: seq<Piece>, room: nat)
    requires room > 0
    ensures Render([x] + ps, room) == PieceText(x, room) + Render(ps, room - |PieceText(x, room)|)
  {
    assert ([x] + ps)[1..] == ps;
  }

  lemma {:induction false} PlainFormat(r: string, args: nat -> Arg, k: nat, err: string, room: nat)
    requires forall i :: 0 <= i < |r| ==> r[i] != '%'
    ensures Pieces(r, args, k, err) == Lits(r) && !Overruns(r, args, k, err, room)
  {
    if r != "" { PlainFormat(r[1..], args, k, err, if room > 0 then room - 1 else 0); }
  }

  /** A call of vseprint: the buffer before, the bounds, the output it is to make, where
      this comes from, and whether the end of the format is going to be overrun. */
  datatype Call = Call(was: string, dst: nat, edst: nat, out: string, args: nat -> Arg, err: string, over: bool)

  /** The buffer now when the output is written up to w and the pieces todo are left. */
  ghost predicate Progress(now: string, c: Call, w: nat, todo: seq<Piece>) {
    && c.dst <= w < c.edst <= |now| == |c.was|
    && now[..c.dst] == c.was[..c.dst] && now[w..] == c.was[w..]
    && now[c.dst..w] + Render(todo, c.edst - 1 - w) == c.out
  }

  lemma ProgressStep(now: string, next: string, c: Call, w: nat, end: nat, t: string, x: Piece, todo: seq<Piece>)
    requires Progress(now, c, w, [x] + todo) && w < c.edst - 1
    requires t == PieceText(x, c.edst - 1 - w) && end == w + |t| && next == now[..w] + t + now[end..]
    ensures Progress(next, c, end, todo)
  {
    Slices(now, next, c.was, c.dst, w, t);
    assert c.edst - 1 - end == c.edst - 1 - w - |t|;
    OutStep(now[c.dst..w], next[c.dst..end], c.out, c.edst - 1 - w, c.edst - 1 - end, t, x, todo);
  }

  lemma OutStep(done: string, more: string, out: string, room: nat, left: nat, t: string, x: Piece, todo: seq<Piece>)
    requires done + Render([x] + todo, room) == out && room > 0
    requires t == PieceText(x, room) && more == done + t && left == room - |t|
    ensures more + Render(todo, left) == out
  {
    RenderStep(x, todo, room);
    Regroup(done, t, Render(todo, left));
  }

  lemma Slices(now: string, next: string, was: string, dst: nat, w: nat, t: string)
    requires dst <= w && w + |t| <= |now| == |was|
    requires now[..dst] == was[..dst] && now[w..] == was[w..]
    requires next == now[..w] + t + now[w + |t|..]
    ensures next[..dst] == was[..dst] && next[dst..w + |t|] == now[dst..w] + t && next[w + |t|..] == was[w + |t|..]
  {
    assert now[w..][|t|..] == now[w + |t|..];
    assert was[w..][|t|..] == was[w + |t|..];
  }

  method PutChar(buf: array<char>, edst: nat, w: nat, ch: char, ghost c: Call, ghost todo: seq<Piece>)
    requires edst == c.edst && w < edst - 1 && Progress(buf[..], c, w, [Lit(ch)] + todo)
    modifies buf
    ensures Progress(buf[..], c, w + 1, todo)
  {
    ghost var now := buf[..];
    buf[w] := ch;
    assert buf[..] == now[..w] + [ch] + now[w + 1..];
    ProgressStep(now, buf[..], c, w, w + 1, [ch], Lit(ch), todo);
  }

  method PutField(buf: array<char>, edst: nat, w: nat, s: string, size: int, ghost room: nat, ghost c: Call,
    ghost todo: seq<Piece>)
    returns (end: nat)
    requires edst == c.edst && w + room == edst - 1 && room > 0 && Progress(buf[..], c, w, [Fld(s, size)] + todo)
    modifies buf
    ensures Progress(buf[..], c, end, todo) && end == w + |Field(s, size, room)|
  {
    ghost var now := buf[..];
    end := PrintStr(buf, w, edst, s, size);
    ProgressStep(now, buf[..], c, w, end, Field(s, size, edst - w - 1), Fld(s, size), todo);
  }

  /** When p points into the format f, the next argument is k and there is this much
      room, the pieces todo are left; over says that the end of f is going to be overrun. */
  ghost predicate Remaining(f: string, p: nat, args: nat -> Arg, k: nat, err: string, room: nat, todo: seq<Piece>,
    over: bool) {
    p <= |f| && todo == Pieces(f[p..], args, k, err) && over == Overruns(f[p..], args, k, err, room)
  }

  lemma CharRemains(f: string, p: nat, args: nat -> Arg, k: nat, err: string, room: nat, todo: seq<Piece>, over: bool)
    returns (rest: seq<Piece>)
    requires Remaining(f, p, args, k, err, room, todo, over) && p < |f| && f[p] != '%' && room > 0
    ensures todo == [Lit(f[p])] + rest && Remaining(f, p + 1, args, k, err, room - 1, rest, over)
  {
    assert f[p..][1..] == f[p + 1..];
    rest := Pieces(f[p + 1..], args, k, err);
  }

  /** What a directive leads to. */
  lemma DirectivePieces(f: string, p: nat, q: nat, fl: Flags, args: nat -> Arg, k: nat, err: string, room: nat)
    requires p < |f| && f[p] == '%' && room > 0 && p < q <= |f| && Scan(f[p + 1..], NO_FLAGS) == (fl, f[q..])
    ensures q == |f| ==> Pieces(f[p..], args, k, err) == [] && Overruns(f[p..], args, k, err, room)
    ensures q < |f| && VerbText(f[q], fl, args(k), err).None? ==>
      Pieces(f[p..], args, k, err) == Lits("*verb*") && !Overruns(f[p..], args, k, err, room)
    ensures q < |f| && VerbText(f[q], fl, args(k), err).Some? ==>
      var text, next := VerbText(f[q], fl, args(k), err).value, if f[q] == 'r' then k else k + 1;
      && Pieces(f[p..], args, k, err) == [Fld(text, fl.Columns())] + Pieces(f[q + 1..], args, next, err)
      && (Overruns(f[p..], args, k, err, room) <==>
          Overruns(f[q + 1..], args, next, err, room - |Field(text, fl.Columns(), room)|))
  {
    assert f[p..][1..] == f[p + 1..];
    if q < |f| { assert f[q..] != "" && f[q..][1..] == f[q + 1..]; }
  }

  /** The first of the pieces todo is a field, the rest is left behind position q. */
  ghost predicate FieldNext(f: string, q: nat, text: string, cols: int, args: nat -> Arg, next: nat, err: string,
                            room: nat, todo: seq<Piece>, over: bool, rest: seq<Piece>) {
    && todo == [Fld(text, cols)] + rest
    && Remaining(f, q + 1, args, next, err, room - |Field(text, cols, room)|, rest, over)
  }

  /** The directive at position p of the format f: the position q of its verb, the text and
      the columns of its field, and the number of the next argument. There is no verb if q
      is the end of the format, and no text if the verb is unknown. */
  ghost predicate Read(f: string, p: nat, q: nat, text: Option<string>, cols: int, args: nat -> Arg, next: nat,
                       err: string, room: nat, todo: seq<Piece>, over: bool, rest: seq<Piece>) {
    && p < q <= |f| && room > 0
    && (q == |f| ==> todo == [] && over)
    && (q < |f| && text.None? ==> todo == Lits("*verb*") && !over)
    && (q < |f| && text.Some? ==> FieldNext(f, q, text.value, cols, args, next, err, room, todo, over, rest))
  }

  method ReadDirective(f: string, p: nat, args: nat -> Arg, k: nat, err: string, ghost room: nat,
    ghost todo: seq<Piece>, ghost over: bool)
    returns (q: nat, text: Option<string>, cols: int, next: nat, ghost rest: seq<Piece>)
    requires Remaining(f, p, args, k, err, room, todo, over) && p < |f| && f[p] == '%' && room > 0
    ensures q <= |f| && Read(f, p, q, text, cols, args, next, err, room, todo, over, rest)
  {
    var fl;
    q, fl := ReadFlags(f, p + 1);
    DirectivePieces(f, p, q, fl, args, k, err, room);
    text, cols, next, rest := None, fl.Columns(), k, [];
    if q < |f| {
      text := Convert(f[q], fl, args(k), err);
      next := if f[q] == 'r' then k else k + 1;
      rest := Pieces(f[q + 1..], args, next, err);
    }
  }

  /** No directive is left. */
  ghost predicate Plain(f: string, p: nat) {
    forall i :: p <= i < |f| ==> f[i] != '%'
  }

  /** What becomes of a directive. */
  datatype Next = Printable | Redirected | Overrun

  /** Where a directive at p0 in f0 has led, with this much room and the pieces todo left. */
  ghost predicate Followed(f0: string, p0: nat, what: Next, f: string, p: nat, args: nat -> Arg, k: nat, err: string,
                           room: nat, todo: seq<Piece>, over: bool, text: string, cols: int, rest: seq<Piece>) {
    match what
    case Overrun => over && todo == []
    case Redirected => Remaining(f, p + 1, args, k, err, room, todo, over) && Plain(f, p + 1)
    case Printable => (
      && f == f0 && p > p0 && room > 0
      && FieldNext(f, p, text, cols, args, k, err, room, todo, over, rest))
  }

  /** Where the pointer into the format goes after an unknown verb: no directive is left. */
  method Redirect(ghost f0: string, ghost p0: nat, ghost q: nat, ghost args: nat -> Arg, ghost k: nat,
                  ghost err: string, ghost room: nat, ghost todo: seq<Piece>, ghost over: bool, ghost cols: int,
                  ghost rest: seq<Piece>)
    returns (f: string)
    requires q < |f0| && Read(f0, p0, q, None, cols, args, k, err, room, todo, over, rest)
    ensures Followed(f0, p0, Redirected, f, 0, args, k, err, room, todo, over, "", cols, rest)
  {
    f := "X*verb*";
    PlainFormat("*verb*", args, k, err, room);
    assert f[1..] == "*verb*";
  }

  /** What a directive leads to: a field, another string to which the pointer into the
      format moves, with p to its start, or the end of the format. */
  method FollowDirective(f0: string, p0: nat, args: nat -> Arg, k0: nat, err: string,
                         ghost room: nat, ghost todo: seq<Piece>, ghost over: bool)
    returns (f: string, p: nat, k: nat, what: Next, text: string, cols: int, ghost rest: seq<Piece>)
    requires Remaining(f0, p0, args, k0, err, room, todo, over) && p0 < |f0| && f0[p0] == '%' && room > 0
    ensures Followed(f0, p0, what, f, p, args, k, err, room, todo, over, text, cols, rest)
  {
    var t;
    p, t, cols, k, rest := ReadDirective(f0, p0, args, k0, err, room, todo, over);
    f, what, text := f0, Overrun, "";
    if p < |f0| {
      match t
      case Some(field) =>
        what, text := Printable, field;
      case None =>
        f := Redirect(f0, p0, p, args, k, err, room, todo, over, cols, rest);
        p, what := 0, Redirected;
    }
  }

  /** In the middle of a call: the buffer now, written up to w; the position p in the
      format f; the number of the next argument, the room and the pieces that are left. */
  ghost predicate Going(now: string, c: Call, f: string, p: nat, k: nat, w: nat, room: nat, todo: seq<Piece>) {
    && Progress(now, c, w, todo) && w + room == c.edst - 1
    && Remaining(f, p, c.args, k, c.err, room, todo, c.over)
  }

  /** The whole output is written, up to w, and overrun says whether the end of the
      format was overrun; the NUL is still missing. */
  ghost predicate Done(now: string, c: Call, w: nat, overrun: bool) {
    && c.dst + |c.out| == w < |c.was| == |now| && overrun == c.over
    && now == c.was[..c.dst] + c.out + [c.was[w]] + c.was[w + 1..]
  }

  lemma AllWritten(now: string, c: Call, w: nat, todo: seq<Piece>)
    requires Progress(now, c, w, todo) && (todo == [] || w == c.edst - 1)
    ensures Done(now, c, w, c.over)
  {
    assert now[c.dst..w] == c.out;
    SplitTwice(now, c.dst, w);
    assert c.was[w..] == [c.was[w]] + c.was[w + 1..];
    Regroup(c.was[..c.dst] + c.out, [c.was[w]], c.was[w + 1..]);
  }

  lemma Ended(now: string, c: Call, f: string, p: nat, k: nat, w: nat, room: nat, todo: seq<Piece>)
    requires Going(now, c, f, p, k, w, room, todo) && (p >= |f| || w >= c.edst - 1)
    ensures Done(now, c, w, false)
  {
    AllWritten(now, c, w, todo);
  }

  /** From position p0 of the format f0, the step what has led here. */
  ghost predicate Stepped(now: string, c: Call, f0: string, p0: nat, what: Next,
                          f: string, p: nat, k: nat, w: nat, room: nat, todo: seq<Piece>)
    requires p0 < |f0|
  {
    match what
    case Overrun => Done(now, c, w, true)
    case Redirected => f0[p0] == '%' && Plain(f, p + 1) && Going(now, c, f, p + 1, k, w, room, todo)
    case Printable => f == f0 && p >= p0 && Going(now, c, f, p + 1, k, w, room, todo)
  }

  /** The case of an ordinary character. */
  method PrintChar(buf: array<char>, edst: nat, f: string, p: nat, w0: nat, ghost c: Call, ghost k: nat,
    ghost room0: nat, ghost todo0: seq<Piece>)
    returns (w: nat, ghost room: nat, ghost todo: seq<Piece>)
    requires Going(buf[..], c, f, p, k, w0, room0, todo0) && edst == c.edst && p < |f| && f[p] != '%' && room0 > 0
    modifies buf
    ensures Going(buf[..], c, f, p + 1, k, w, room, todo)
  {
    todo := CharRemains(f, p, c.args, k, c.err, room0, todo0, c.over);
    PutChar(buf, edst, w0, f[p], c, todo);
    w, room := w0 + 1, room0 - 1;
  }

  /** The case of a directive. */
  method PrintDirective(buf: array<char>, edst: nat, f0: string, p0: nat, k0: nat, w0: nat, args: nat -> Arg,
    err: string, ghost c: Call, ghost room0: nat, ghost todo0: seq<Piece>)
    returns (f: string, p: nat, k: nat, w: nat, what: Next, ghost room: nat, ghost todo: seq<Piece>)
    requires Going(buf[..], c, f0, p0, k0, w0, room0, todo0) && edst == c.edst && args == c.args && err == c.err
    requires p0 < |f0| && f0[p0] == '%' && room0 > 0
    modifies buf
    ensures Stepped(buf[..], c, f0, p0, what, f, p, k, w, room, todo)
  {
    var text, cols;
    ghost var rest;
    f, p, k, what, text, cols, rest := FollowDirective(f0, p0, args, k0, err, room0, todo0, c.over);
    w, room, todo := w0, room0, todo0;
    if what.Printable? {
      w := PutField(buf, edst, w0, text, cols, room0, c, rest);
      room, todo := room0 - |Field(text, cols, room0)|, rest;
    } else if what.Overrun? {
      AllWritten(buf[..], c, w, todo);
    }
  }

  /** The body of the loop of vseprint. */
  method PrintNext(buf: array<char>, edst: nat, f0: string, p0: nat, k0: nat, w0: nat, args: nat -> Arg, err: string,
                   ghost c: Call, ghost room0: nat, ghost todo0: seq<Piece>)
    returns (f: string, p: nat, k: nat, w: nat, what: Next, ghost room: nat, ghost todo: seq<Piece>)
    requires Going(buf[..], c, f0, p0, k0, w0, room0, todo0) && edst == c.edst && args == c.args && err == c.err
    requires p0 < |f0| && w0 < edst - 1
    modifies buf
    ensures Stepped(buf[..], c, f0, p0, what, f, p, k, w, room, todo)
  {
    if f0[p0] != '%' {
      f, p, k, what := f0, p0, k0, Printable;
      w, room, todo := PrintChar(buf, edst, f0, p0, w0, c, k0, room0, todo0);
      assert Going(buf[..], c, f, p + 1, k, w, room, todo);
    } else {
      f, p, k, w, what, room, todo := PrintDirective(buf, edst, f0, p0, k0, w0, args, err, c, room0, todo0);
    }
  }

  /** At the head of the loop; redirected if the pointer has moved to another string. */
  ghost predicate AtHead(now: string, c: Call, f: string, p: nat, k: nat, w: nat, room: nat, todo: seq<Piece>,
                         redirected: bool) {
    Going(now, c, f, p, k, w, room, todo) && (redirected ==> Plain(f, p))
  }

  /** The loop gets closer to its end. */
  ghost predicate Closer(redirected0: bool, f0: string, p0: nat, redirected: bool, f: string, p: nat) {
    if redirected == redirected0 then f == f0 && p0 < p else redirected
  }

  lemma NextHead(now: string, c: Call, f0: string, p0: nat, redirected: bool, what: Next,
                 f: string, p: nat, k: nat, w: nat, room: nat, todo: seq<Piece>)
    requires p0 < |f0| && (redirected ==> Plain(f0, p0)) && !what.Overrun?
    requires Stepped(now, c, f0, p0, what, f, p, k, w, room, todo)
    ensures AtHead(now, c, f, p + 1, k, w, room, todo, redirected || what.Redirected?)
    ensures Closer(redirected, f0, p0, redirected || what.Redirected?, f, p + 1)
  {
  }

  /** One round of the loop of vseprint. */
  method PrintRound(buf: array<char>, edst: nat, f0: string, p0: nat, k0: nat, w0: nat, args: nat -> Arg, err: string,
                    redirected0: bool, ghost c: Call, ghost room0: nat, ghost todo0: seq<Piece>)
    returns (f: string, p: nat, k: nat, w: nat, redirected: bool, over: bool, ghost room: nat, ghost todo: seq<Piece>)
    requires AtHead(buf[..], c, f0, p0, k0, w0, room0, todo0, redirected0)
    requires edst == c.edst && args == c.args && err == c.err && p0 < |f0| && w0 < edst - 1
    modifies buf
    ensures if over then Done(buf[..], c, w, true) else AtHead(buf[..], c, f, p, k, w, room, todo, redirected)
    ensures over || Closer(redirected0, f0, p0, redirected, f, p)
  {
    var what;
    f, p, k, w, what, room, todo := PrintNext(buf, edst, f0, p0, k0, w0, args, err, c, room0, todo0);
    redirected, over := redirected0 || what.Redirected?, what.Overrun?;
    if !over {
      NextHead(buf[..], c, f0, p0, redirected0, what, f, p, k, w, room, todo);
      p := p + 1;
    }
  }

  /** The loop of vseprint. It ends because the pointer moves to another string only once. */
  method PrintPieces(buf: array<char>, dst: nat, edst: nat, fmt: string, args: nat -> Arg, err: string,
                     ghost c: Call, ghost room0: nat, ghost todo0: seq<Piece>)
    returns (w: nat, overrun: bool)
    requires Going(buf[..], c, fmt, 0, 0, dst, room0, todo0) && edst == c.edst && args == c.args && err == c.err
    modifies buf
    ensures Done(buf[..], c, w, overrun)
  {
    ghost var room, todo := room0, todo0;
    var f, redirected := fmt, false;
    var p: nat, k: nat := 0, 0;
    w := dst;
    while p < |f| && w < edst - 1
      invariant AtHead(buf[..], c, f, p, k, w, room, todo, redirected)
      decreases if redirected then 0 else 1, |f| - p
    {
      var over;
      f, p, k, w, redirected, over, room, todo :=
        PrintRound(buf, edst, f, p, k, w, args, err, redirected, c, room, todo);
      if over {
        return w, true;
      }
    }
    overrun := false;
    Ended(buf[..], c, f, p, k, w, room, todo);
  }

  /** The buffer after a call that made this output: up to the NUL behind it, or, if the
      program reads on behind the end of the format, as it is then. */
  ghost function After(was: string, dst: nat, out: string, overrun: bool): string
    requires dst + |out| < |was|
  {
    was[..dst] + out + [if overrun then was[dst + |out|] else NUL] + was[dst + |out| + 1..]
  }

  lemma AtStart(c: Call, fmt: string, room: nat)
    requires c.dst < c.edst <= |c.was| && c.dst + room == c.edst - 1
    requires c.out == Render(Pieces(fmt, c.args, 0, c.err), room) && c.over == Overruns(fmt, c.args, 0, c.err, room)
    ensures Going(c.was, c, fmt, 0, 0, c.dst, room, Pieces(fmt, c.args, 0, c.err))
  {
    assert fmt[0..] == fmt && c.was[c.dst..c.dst] == "";
  }

  /** vseprint, for any format: the output and a NUL, within the bounds of the buffer. */
  method VSEPrint(buf: array<char>, dst: nat, edst: nat, fmt: string, args: nat -> Arg, err: string)
    returns (overrun: bool)
    requires dst < edst <= buf.Length
    modifies buf
    ensures overrun <==> Overruns(fmt, args, 0, err, edst - 1 - dst)
    ensures var out := Render(Pieces(fmt, args, 0, err), edst - 1 - dst);
      dst + |out| < edst && buf[..] == After(old(buf[..]), dst, out, overrun)
  {
    ghost var room, todo := edst - 1 - dst, Pieces(fmt, args, 0, err);
    ghost var c := Call(buf[..], dst, edst, Render(todo, room), args, err, Overruns(fmt, args, 0, err, room));
    AtStart(c, fmt, room);
    var w;
    w, overrun := PrintPieces(buf, dst, edst, fmt, args, err, c, room, todo);
    Finish(buf, w, overrun, c);
  }

  method Finish(buf: array<char>, w: nat, overrun: bool, ghost c: Call)
    requires Done(buf[..], c, w, overrun)
    modifies buf
    ensures c.dst + |c.out| == w < |c.was| && buf[..] == After(c.was, c.dst, c.out, overrun)
  {
    if !overrun {
      buf[w] := NUL;
    }
  }
}
