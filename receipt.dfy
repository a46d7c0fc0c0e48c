/** The receipt program of `src/main.rs`: an 800 by 600 white canvas, the
    `add_text` closure that draws one line at a fixed left margin and moves a
    vertical cursor down by a fixed line height, the fixed sequence of lines
    and gaps of one kitchen ticket, and a reference semantics for any such
    sequence with what it guarantees about where the lines land. */
module Receipt {
  import opened Ints
  import opened Canvas
  import Dib

  /** Left edge of every line. */
  const TextX: int := 10
  /** Cursor advance of every line, whatever its size or weight. */
  const LineHeight: int := 20

  /** `if is_bold { &font_bold } else { &font }` */
  function FontFor(isBold: bool): (f: Font)
    ensures f == Bold <==> isBold
  {
    if isBold then Bold else Regular
  }

  /** `add_text(text, size, is_bold, &mut y)`: draws `text` once, in black, at
      (10, y) with the face `is_bold` selects and the scale `size` gives, and
      returns the cursor moved down by one line height. */
  method AddText(img: Image, text: string, size: nat, isBold: bool, y: i32) returns (y': i32)
    requires y + LineHeight <= I32Max
    modifies img, img.data
    ensures img.drawn == old(img.drawn) + [Draw(Black, TextX, y, size, FontFor(isBold), text)]
    ensures y' == y + LineHeight
  {
    img.DrawText(Black, TextX, y, size, FontFor(isBold), text);
    y' := y + LineHeight;
  }

  /** What the receipt asks the layout for, one statement at a time: a call of
      `add_text`, or a bare `y_offset += amount`. */
  datatype Directive = Line(text: string, size: nat, isBold: bool) | Gap(amount: int)

  /** The cursor and the draws made so far. */
  datatype Cursor = Cursor(y: int, drawn: seq<DrawCommand>)

  /** One statement: a text line adds its draw at the cursor and moves the
      cursor one line height down; a gap only moves the cursor. */
  function Step(c: Cursor, d: Directive): (r: Cursor)
    ensures d.Line? ==>
      && r.y == c.y + LineHeight && |r.drawn| == |c.drawn| + 1 && r.drawn[..|c.drawn|] == c.drawn
      && DrawsLine(r.drawn[|c.drawn|], d) && r.drawn[|c.drawn|].y == c.y
    ensures d.Gap? ==> r.drawn == c.drawn && r.y == c.y + d.amount
  {
    match d
    case Line(text, size, isBold) =>
      Cursor(c.y + LineHeight, c.drawn + [Draw(Black, TextX, c.y, size, FontFor(isBold), text)])
    case Gap(amount) => Cursor(c.y + amount, c.drawn)
  }

  /** The state after carrying out `ds` in order from `c`. */
  function Run(c: Cursor, ds: seq<Directive>): Cursor
    decreases |ds|
  {
    if ds == [] then c else Run(Step(c, ds[0]), ds[1..])
  }

  /** The text lines of `ds`, in order. */
  function Lines(ds: seq<Directive>): (ls: seq<Directive>)
    ensures |ls| <= |ds|
    ensures forall k :: 0 <= k < |ls| ==> ls[k].Line?
    decreases |ds|
  {
    if ds == [] then []
    else (if ds[0].Line? then [ds[0]] else []) + Lines(ds[1..])
  }

  /** The sum of the gaps of `ds`. */
  function GapTotal(ds: seq<Directive>): int
    decreases |ds|
  {
    if ds == [] then 0
    else (if ds[0].Gap? then ds[0].amount else 0) + GapTotal(ds[1..])
  }

  /** No gap of `ds` moves the cursor up. */
  predicate NoBackwardGaps(ds: seq<Directive>)
    decreases |ds|
  {
    ds == [] || ((ds[0].Gap? ==> ds[0].amount >= 0) && NoBackwardGaps(ds[1..]))
  }

  /** Lines drawn so far go strictly downwards, and the cursor sits at least
      one line height below the last of them. */
  predicate Ordered(c: Cursor)
  {
    && (forall i, j :: 0 <= i < j < |c.drawn| ==> c.drawn[i].y < c.drawn[j].y)
    && (forall i :: 0 <= i < |c.drawn| ==> c.drawn[i].y + LineHeight <= c.y)
  }

  /** Carrying out `a` and then `b` is carrying out `a + b`. */
  lemma {:induction false} RunAppend(c: Cursor, a: seq<Directive>, b: seq<Directive>)
    ensures Run(c, a + b) == Run(Run(c, a), b)
    decreases |a|
  {
    if a == [] {
      assert a + b == b;
    } else {
      assert (a + b)[0] == a[0] && (a + b)[1..] == a[1..] + b;
      RunAppend(Step(c, a[0]), a[1..], b);
    }
  }

  /** One draw per text line and none per gap; the cursor ends one line height
      lower per text line plus the sum of the gaps, whatever the sizes and
      weights of the lines. */
  lemma {:induction false} RunCursor(c: Cursor, ds: seq<Directive>)
    ensures |Run(c, ds).drawn| == |c.drawn| + |Lines(ds)|
    ensures Run(c, ds).y == c.y + LineHeight * |Lines(ds)| + GapTotal(ds)
    decreases |ds|
  {
    if ds != [] {
      RunCursor(Step(c, ds[0]), ds[1..]);
    }
  }

  /** `d` is the draw `add_text` makes for the text line `l`: the text once, in
      black, at the left margin, in the face its weight selects and at its size. */
  predicate DrawsLine(d: DrawCommand, l: Directive)
  {
    && l.Line? && d.x == TextX && d.colour == Black
    && d.text == l.text && d.size == l.size && d.font == FontFor(l.isBold)
  }

  /** The draws already made are kept, and the k-th new draw is the draw of
      the k-th text line. */
  lemma {:induction false} RunDraws(c: Cursor, ds: seq<Directive>)
    ensures |Run(c, ds).drawn| == |c.drawn| + |Lines(ds)|
    ensures Run(c, ds).drawn[..|c.drawn|] == c.drawn
    ensures forall k :: 0 <= k < |Lines(ds)| ==> DrawsLine(Run(c, ds).drawn[|c.drawn| + k], Lines(ds)[k])
    decreases |ds|
  {
    RunCursor(c, ds);
    if ds != [] {
      var next, rest := Step(c, ds[0]), ds[1..];
      RunDraws(next, rest);
      var r := Run(c, ds).drawn;
      assert r == Run(next, rest).drawn;
      assert r[..|c.drawn|] == next.drawn[..|c.drawn|];
      var offset := |next.drawn| - |c.drawn|;
      assert Lines(ds) == (if ds[0].Line? then [ds[0]] else []) + Lines(rest);
      forall k | 0 <= k < |Lines(ds)|
        ensures DrawsLine(r[|c.drawn| + k], Lines(ds)[k])
      {
        if k < offset {
          assert r[|c.drawn| + k] == next.drawn[|c.drawn|];
        } else {
          assert r[|c.drawn| + k] == Run(next, rest).drawn[|next.drawn| + (k - offset)];
          assert Lines(ds)[k] == Lines(rest)[k - offset];
        }
      }
    }
  }

  lemma {:induction false} LinesAppend(a: seq<Directive>, b: seq<Directive>)
    ensures Lines(a + b) == Lines(a) + Lines(b)
    decreases |a|
  {
    if a != [] {
      assert (a + b)[0] == a[0] && (a + b)[1..] == a[1..] + b;
      LinesAppend(a[1..], b);
    } else {
      assert a + b == b;
    }
  }

  lemma {:induction false} GapTotalAppend(a: seq<Directive>, b: seq<Directive>)
    ensures GapTotal(a + b) == GapTotal(a) + GapTotal(b)
    decreases |a|
  {
    if a != [] {
      assert (a + b)[0] == a[0] && (a + b)[1..] == a[1..] + b;
      GapTotalAppend(a[1..], b);
    } else {
      assert a + b == b;
    }
  }

  /** When the last directive is a text line, the last draw sits one line
      height above the final cursor. */
  lemma RunEndsWithLine(c: Cursor, ds: seq<Directive>)
    requires ds != [] && ds[|ds| - 1].Line?
    ensures |Run(c, ds).drawn| > 0
    ensures Run(c, ds).drawn[|Run(c, ds).drawn| - 1].y + LineHeight == Run(c, ds).y
  {
    var init := ds[..|ds| - 1];
    assert ds == init + [ds[|ds| - 1]];
    RunAppend(c, init, [ds[|ds| - 1]]);
  }

  /** The vertical positions of a sequence of draws. */
  function Ys(drawn: seq<DrawCommand>): (ys: seq<int>)
    ensures |ys| == |drawn| && forall i :: 0 <= i < |drawn| ==> ys[i] == drawn[i].y
  {
    seq(|drawn|, i requires 0 <= i < |drawn| => drawn[i].y)
  }

  /** `ds` and `es` differ at most in the text, size and weight of their lines. */
  predicate SameShape(ds: seq<Directive>, es: seq<Directive>)
  {
    && |ds| == |es|
    && forall i :: 0 <= i < |ds| ==>
         (ds[i].Line? && es[i].Line?) || (ds[i].Gap? && es[i].Gap? && ds[i].amount == es[i].amount)
  }

  /** Where lines land depends only on the sequence of lines and gaps, never
      on what the lines say, their size or their weight. */
  lemma {:induction false} PlacementIgnoresStyle(c: Cursor, e: Cursor, ds: seq<Directive>, es: seq<Directive>)
    requires c.y == e.y && Ys(c.drawn) == Ys(e.drawn) && SameShape(ds, es)
    ensures Run(c, ds).y == Run(e, es).y
    ensures Ys(Run(c, ds).drawn) == Ys(Run(e, es).drawn)
    decreases |ds|
  {
    if ds != [] {
      var c', e' := Step(c, ds[0]), Step(e, es[0]);
      assert Ys(c'.drawn) == Ys(e'.drawn);
      assert SameShape(ds[1..], es[1..]) by {
        forall i | 0 <= i < |ds| - 1
          ensures (ds[1..][i].Line? && es[1..][i].Line?)
             || (ds[1..][i].Gap? && es[1..][i].Gap? && ds[1..][i].amount == es[1..][i].amount)
        {
          assert ds[1..][i] == ds[i + 1] && es[1..][i] == es[i + 1];
        }
      }
      PlacementIgnoresStyle(c', e', ds[1..], es[1..]);
    }
  }

  /** Without backward gaps, the lines drawn go strictly downwards; each new one
      starts at or below the starting cursor and lies wholly above the final
      cursor. */
  lemma {:induction false} RunOrdered(c: Cursor, ds: seq<Directive>)
    requires Ordered(c) && NoBackwardGaps(ds)
    ensures Ordered(Run(c, ds))
    ensures c.y <= Run(c, ds).y
    ensures forall i :: |c.drawn| <= i < |Run(c, ds).drawn| ==> c.y <= Run(c, ds).drawn[i].y
    decreases |ds|
  {
    if ds != [] {
      var next := Step(c, ds[0]);
      assert Ordered(next);
      RunOrdered(next, ds[1..]);
      RunDraws(next, ds[1..]);
    }
  }

  /** The vertical position of each text line of `ds`, in order, when the
      cursor starts at `y`: a line sits at the cursor and moves it one line
      height down, a gap moves it by its amount. */
  function Placements(y: int, ds: seq<Directive>): (ps: seq<int>)
    ensures |ps| == |Lines(ds)|
    decreases |ds|
  {
    if ds == [] then []
    else if ds[0].Line? then [y] + Placements(y + LineHeight, ds[1..])
    else Placements(y + ds[0].amount, ds[1..])
  }

  /** A run keeps the positions of the earlier draws and places its own
      lines where `Placements` says. */
  lemma {:induction false} RunYs(c: Cursor, ds: seq<Directive>)
    ensures Ys(Run(c, ds).drawn) == Ys(c.drawn) + Placements(c.y, ds)
    decreases |ds|
  {
    if ds != [] {
      var next := Step(c, ds[0]);
      RunYs(next, ds[1..]);
      assert Ys(next.drawn) == Ys(c.drawn) + (if ds[0].Line? then [c.y] else []);
    }
  }

  /** Placing `a + b` is placing `a`, then `b` from where `a` leaves the cursor. */
  lemma {:induction false} PlacementsAppend(y: int, a: seq<Directive>, b: seq<Directive>)
    ensures Placements(y, a + b)
         == Placements(y, a) + Placements(y + LineHeight * |Lines(a)| + GapTotal(a), b)
    decreases |a|
  {
    if a == [] {
      assert a + b == b;
    } else {
      assert (a + b)[0] == a[0] && (a + b)[1..] == a[1..] + b;
      var y' := if a[0].Line? then y + LineHeight else y + a[0].amount;
      PlacementsAppend(y', a[1..], b);
    }
  }

  /** The text line at index `i` of `ds` is drawn at the cursor as it stands
      after the directives before it: one line height per earlier line plus
      the earlier gaps below the start. */
  lemma RunPlacesLine(c: Cursor, ds: seq<Directive>, i: nat)
    requires i < |ds| && ds[i].Line?
    ensures |c.drawn| + |Lines(ds[..i])| < |Run(c, ds).drawn|
    ensures Run(c, ds).drawn[|c.drawn| + |Lines(ds[..i])|].y
         == Run(c, ds[..i]).y
         == c.y + LineHeight * |Lines(ds[..i])| + GapTotal(ds[..i])
  {
    var before, after := ds[..i], ds[i..];
    assert ds == before + after;
    RunAppend(c, before, after);
    RunCursor(c, before);
    var m := Run(c, before);
    assert after[0] == ds[i] && after[1..] == ds[i + 1..];
    RunDraws(Step(m, ds[i]), ds[i + 1..]);
    RunCursor(Step(m, ds[i]), ds[i + 1..]);
  }

  const CanvasWidth: u32 := 800
  const CanvasHeight: u32 := 600
  /** Initial `y_offset`. */
  const StartY: int := 10

  /** The cursor before anything is drawn. */
  const Start: Cursor := Cursor(StartY, [])

  // The ticket, statement by statement, in the three blocks the program
  // separates by blank lines.

  function Heading(): seq<Directive>
  {
    [ Line("Kitchen #1", 16, true),
      Gap(20),
      Line("TABLE M1", 14, true),
      Line("ORDER #1-1", 14, true),
      Gap(20),
      Line("Invoice #1    Mon, 9/23/2024 6:37 PM", 12, false),
      Gap(20) ]
  }

  function Items(): seq<Directive>
  {
    FirstItems() + LastItems()
  }

  /** The eggrolls with their modifiers, and the drink with its one. */
  function FirstItems(): seq<Directive>
  {
    [ Line("1 Avocado Eggrolls", 12, false),
      Line("아보카도 에그롤", 12, false),
      Line("1 Make It Gluten Free", 12, false),
      Line("1 Diet Coke", 12, false),
      Line("1 Yes", 12, false) ]
  }

  /** The fries, and the filet with its modifiers. */
  function LastItems(): seq<Directive>
  {
    [ Line("1 French Fries", 12, false),
      Line("감자 튀김", 12, false),
      Line("1 Petite Filet", 12, false),
      Line("뼈때 필레", 12, false),
      Line("1 Medium Rare", 12, false),
      Line("1 Make It Gluten Free", 12, false) ]
  }

  function Footer(): seq<Directive>
  {
    [ Gap(40),
      Line("Printed 6:37 PM", 12, false) ]
  }

  function ReceiptDocument(): seq<Directive>
  {
    Heading() + Items() + Footer()
  }

  /** Lines 42-53 of the program: the kitchen, table and order numbers and the invoice line, each block followed by a gap. */
  method LayOutHeading(img: Image, y0: i32) returns (y: i32)
    requires y0 + 140 <= I32Max
    modifies img, img.data
    ensures Cursor(y, img.drawn) == Run(Cursor(y0, old(img.drawn)), Heading())
    ensures y == y0 + 140
  {
    ghost var rest := Heading();
    ghost var cur := Cursor(y0, img.drawn);
    ghost var final := Run(cur, rest);
    y := y0;
    y := AddText(img, "Kitchen #1", 16, true, y);
    cur := Step(cur, rest[0]);
    rest := rest[1..];
    assert Run(cur, rest) == final;
    assert Cursor(y, img.drawn) == cur;
    y := y + 20;
    cur := Step(cur, rest[0]);
    rest := rest[1..];
    assert Run(cur, rest) == final;
    assert Cursor(y, img.drawn) == cur;
    y := AddText(img, "TABLE M1", 14, true, y);
    cur := Step(cur, rest[0]);
    rest := rest[1..];
    assert Run(cur, rest) == final;
    assert Cursor(y, img.drawn) == cur;
    y := AddText(img, "ORDER #1-1", 14, true, y);
    cur := Step(cur, rest[0]);
    rest := rest[1..];
    assert Run(cur, rest) == final;
    assert Cursor(y, img.drawn) == cur;
    y := y + 20;
    cur := Step(cur, rest[0]);
    rest := rest[1..];
    assert Run(cur, rest) == final;
    assert Cursor(y, img.drawn) == cur;
    y := AddText(img, "Invoice #1    Mon, 9/23/2024 6:37 PM", 12, false, y);
    cur := Step(cur, rest[0]);
    rest := rest[1..];
    assert Run(cur, rest) == final;
    assert Cursor(y, img.drawn) == cur;
    y := y + 20;
    cur := Step(cur, rest[0]);
    rest := rest[1..];
    assert Run(cur, rest) == final;
    assert Cursor(y, img.drawn) == cur;
  }

  /** Lines 55-65 of the program: the ordered items and their modifiers, one line each. */
  method LayOutItems(img: Image, y0: i32) returns (y: i32)
    requires y0 + 220 <= I32Max
    modifies img, img.data
    ensures Cursor(y, img.drawn) == Run(Cursor(y0, old(img.drawn)), Items())
    ensures y == y0 + 220
  {
    y := LayOutFirstItems(img, y0);
    y := LayOutLastItems(img, y);
    RunAppend(Cursor(y0, old(img.drawn)), FirstItems(), LastItems());
  }

  /** Lines 55-59: the eggrolls with their modifiers and the drink with its one. */
  method LayOutFirstItems(img: Image, y0: i32) returns (y: i32)
    requires y0 + 100 <= I32Max
    modifies img, img.data
    ensures Cursor(y, img.drawn) == Run(Cursor(y0, old(img.drawn)), FirstItems())
    ensures y == y0 + 100
  {
    ghost var rest := FirstItems();
    ghost var cur := Cursor(y0, img.drawn);
    ghost var final := Run(cur, rest);
    y := y0;
    y := AddText(img, "1 Avocado Eggrolls", 12, false, y);
    cur := Step(cur, rest[0]);
    rest := rest[1..];
    assert Run(cur, rest) == final;
    assert Cursor(y, img.drawn) == cur;
    y := AddText(img, "아보카도 에그롤", 12, false, y);
    cur := Step(cur, rest[0]);
    rest := rest[1..];
    assert Run(cur, rest) == final;
    assert Cursor(y, img.drawn) == cur;
    y := AddText(img, "1 Make It Gluten Free", 12, false, y);
    cur := Step(cur, rest[0]);
    rest := rest[1..];
    assert Run(cur, rest) == final;
    assert Cursor(y, img.drawn) == cur;
    y := AddText(img, "1 Diet Coke", 12, false, y);
    cur := Step(cur, rest[0]);
    rest := rest[1..];
    assert Run(cur, rest) == final;
    assert Cursor(y, img.drawn) == cur;
    y := AddText(img, "1 Yes", 12, false, y);
    cur := Step(cur, rest[0]);
    rest := rest[1..];
    assert Run(cur, rest) == final;
    assert Cursor(y, img.drawn) == cur;
  }

  /** Lines 60-65: the fries and the filet with their modifiers. */
  method LayOutLastItems(img: Image, y0: i32) returns (y: i32)
    requires y0 + 120 <= I32Max
    modifies img, img.data
    ensures Cursor(y, img.drawn) == Run(Cursor(y0, old(img.drawn)), LastItems())
    ensures y == y0 + 120
  {
    ghost var rest := LastItems();
    ghost var cur := Cursor(y0, img.drawn);
    ghost var final := Run(cur, rest);
    y := y0;
    y := AddText(img, "1 French Fries", 12, false, y);
    cur := Step(cur, rest[0]);
    rest := rest[1..];
    assert Run(cur, rest) == final;
    assert Cursor(y, img.drawn) == cur;
    y := AddText(img, "감자 튀김", 12, false, y);
    cur := Step(cur, rest[0]);
    rest := rest[1..];
    assert Run(cur, rest) == final;
    assert Cursor(y, img.drawn) == cur;
    y := AddText(img, "1 Petite Filet", 12, false, y);
    cur := Step(cur, rest[0]);
    rest := rest[1..];
    assert Run(cur, rest) == final;
    assert Cursor(y, img.drawn) == cur;
    y := AddText(img, "뼈때 필레", 12, false, y);
    cur := Step(cur, rest[0]);
    rest := rest[1..];
    assert Run(cur, rest) == final;
    assert Cursor(y, img.drawn) == cur;
    y := AddText(img, "1 Medium Rare", 12, false, y);
    cur := Step(cur, rest[0]);
    rest := rest[1..];
    assert Run(cur, rest) == final;
    assert Cursor(y, img.drawn) == cur;
    y := AddText(img, "1 Make It Gluten Free", 12, false, y);
    cur := Step(cur, rest[0]);
    rest := rest[1..];
    assert Run(cur, rest) == final;
    assert Cursor(y, img.drawn) == cur;
  }

  /** Lines 67-68 of the program: a wider gap and the print time. */
  method LayOutFooter(img: Image, y0: i32) returns (y: i32)
    requires y0 + 60 <= I32Max
    modifies img, img.data
    ensures Cursor(y, img.drawn) == Run(Cursor(y0, old(img.drawn)), Footer())
    ensures y == y0 + 60
  {
    ghost var rest := Footer();
    ghost var cur := Cursor(y0, img.drawn);
    ghost var final := Run(cur, rest);
    y := y0;
    y := y + 40;
    cur := Step(cur, rest[0]);
    rest := rest[1..];
    assert Run(cur, rest) == final;
    assert Cursor(y, img.drawn) == cur;
    y := AddText(img, "Printed 6:37 PM", 12, false, y);
    cur := Step(cur, rest[0]);
    rest := rest[1..];
    assert Run(cur, rest) == final;
    assert Cursor(y, img.drawn) == cur;
  }

  /** Lines 14-15 of the program: an 800 by 600 canvas, allocated and then
      whitened, with nothing drawn on it yet. */
  method NewWhiteCanvas() returns (img: Image)
    ensures fresh(img) && fresh(img.data) && img.Valid()
    ensures img.width == CanvasWidth && img.height == CanvasHeight && img.drawn == []
    ensures forall i :: 0 <= i < img.data.Length ==> img.data[i] == 255
    ensures forall x: nat, y: nat :: x < img.width && y < img.height ==> img.Pixel(x, y) == White
  {
    img := new Image(CanvasWidth, CanvasHeight);
    img.Fill(255);
    img.UniformBytesUniformPixels(255);
  }

  /** The body of the program up to the printing: the white canvas, then the
      ticket laid out on it with a cursor starting at 10. */
  method RenderReceipt() returns (img: Image, y: i32)
    ensures fresh(img) && fresh(img.data) && img.Valid()
    ensures img.width == CanvasWidth && img.height == CanvasHeight
    ensures Cursor(y, img.drawn) == Run(Start, ReceiptDocument())
  {
    img := NewWhiteCanvas();
    y := StartY;
    y := LayOutHeading(img, y);
    y := LayOutItems(img, y);
    RunAppend(Start, Heading(), Items());
    assert Cursor(y, img.drawn) == Run(Start, Heading() + Items());
    y := LayOutFooter(img, y);
    RunAppend(Start, Heading() + Items(), Footer());
  }

  /** Lines, gaps and their sum, block by block, as the program writes them. */
  lemma HeadingShape()
    ensures |Lines(Heading())| == 4 && GapTotal(Heading()) == 60 && NoBackwardGaps(Heading())
  {
  }

  lemma ItemsShape()
    ensures |Lines(Items())| == 11 && GapTotal(Items()) == 0 && NoBackwardGaps(Items())
  {
    ItemsAllLines();
    OnlyLines(Items());
  }

  lemma ItemsAllLines()
    ensures |Items()| == 11 && forall k :: 0 <= k < |Items()| ==> Items()[k].Line?
  {
  }

  /** A run of text lines with no gap between them draws one line each. */
  lemma {:induction false} OnlyLines(ds: seq<Directive>)
    requires forall k :: 0 <= k < |ds| ==> ds[k].Line?
    ensures |Lines(ds)| == |ds| && GapTotal(ds) == 0 && NoBackwardGaps(ds)
    decreases |ds|
  {
    if ds != [] {
      OnlyLines(ds[1..]);
    }
  }

  lemma FooterShape()
    ensures |Lines(Footer())| == 1 && GapTotal(Footer()) == 40 && NoBackwardGaps(Footer())
    ensures Footer()[|Footer()| - 1].Line?
  {
  }

  lemma {:induction false} NoBackwardGapsAppend(a: seq<Directive>, b: seq<Directive>)
    requires NoBackwardGaps(a) && NoBackwardGaps(b)
    ensures NoBackwardGaps(a + b)
    decreases |a|
  {
    if a != [] {
      assert (a + b)[0] == a[0] && (a + b)[1..] == a[1..] + b;
      NoBackwardGapsAppend(a[1..], b);
    } else {
      assert a + b == b;
    }
  }

  /** Where the sixteen lines of a ticket land: sixteen draws, the cursor
      ending at 10 + 16 * 20 + (20 + 20 + 20 + 40) = 430, the last line at 410,
      the lines going strictly downwards, and every line at the left margin
      with its full line height above the final cursor and inside the canvas. */
  predicate TicketLaidOut(r: Cursor)
  {
    && |r.drawn| == 16 && r.y == 430
    && r.drawn[15].y == 410
    && Ordered(r)
    && r.y <= CanvasHeight
    && forall i :: 0 <= i < |r.drawn| ==>
         && r.drawn[i].x == TextX && r.drawn[i].x < CanvasWidth
         && StartY <= r.drawn[i].y && r.drawn[i].y + LineHeight <= r.y
  }

  /** What the layout guarantees for any ticket of sixteen lines whose gaps,
      all forward, add up to 100 and which ends with a line. */
  lemma FitsWhenShaped(doc: seq<Directive>)
    requires |Lines(doc)| == 16 && GapTotal(doc) == 100 && NoBackwardGaps(doc)
    requires doc != [] && doc[|doc| - 1].Line?
    ensures TicketLaidOut(Run(Start, doc))
  {
    var r := Run(Start, doc);
    RunCursor(Start, doc);
    RunEndsWithLine(Start, doc);
    RunOrdered(Start, doc);
    RunDraws(Start, doc);
    forall i | 0 <= i < |r.drawn| ensures r.drawn[i].x == TextX {
      assert DrawsLine(r.drawn[|Start.drawn| + i], Lines(doc)[i]);
    }
  }

  /** A heading of four lines and 60 of gaps, a body of eleven lines and no
      gaps, and a footer of one line and 40 of gaps that ends with its line,
      all gaps forward, make a ticket that `FitsWhenShaped` applies to. */
  lemma ThreeBlocksFit(h: seq<Directive>, m: seq<Directive>, f: seq<Directive>)
    requires |Lines(h)| == 4 && GapTotal(h) == 60 && NoBackwardGaps(h)
    requires |Lines(m)| == 11 && GapTotal(m) == 0 && NoBackwardGaps(m)
    requires |Lines(f)| == 1 && GapTotal(f) == 40 && NoBackwardGaps(f)
    requires f != [] && f[|f| - 1].Line?
    ensures TicketLaidOut(Run(Start, h + m + f))
  {
    LinesAppend(h, m);
    LinesAppend(h + m, f);
    GapTotalAppend(h, m);
    GapTotalAppend(h + m, f);
    NoBackwardGapsAppend(h, m);
    NoBackwardGapsAppend(h + m, f);
    var doc := h + m + f;
    assert doc[|doc| - 1] == f[|f| - 1];
    FitsWhenShaped(doc);
  }

  /** The ticket of `main` is laid out as `TicketLaidOut` describes. */
  lemma ReceiptFits()
    ensures TicketLaidOut(Run(Start, ReceiptDocument()))
  {
    HeadingShape();
    ItemsShape();
    FooterShape();
    ThreeBlocksFit(Heading(), Items(), Footer());
  }

  /** The header and transfer the program builds for its 800 by 600 canvas:
      biWidth 800 and biHeight -600, so rows are read from the top, rows of
      3200 bytes covering the canvas's buffer exactly, and a transfer of the
      whole canvas, every scan line supplied, to the same place on the page. */
  lemma ReceiptPrintArguments()
    ensures var h := Dib.BitmapInfoFor(CanvasWidth, CanvasHeight).bmiHeader;
      && h.biWidth == 800 && h.biHeight == -600
      && Dib.Describes(h, CanvasWidth, CanvasHeight) && Dib.TopDown(h)
      && Dib.Stride(h) == 3200
      && Dib.Stride(h) * Dib.Rows(h) == CanvasWidth * CanvasHeight * Channels
    ensures var t := Dib.TransferFor(CanvasWidth, CanvasHeight);
      && (forall x, y :: Dib.InSource(t, x, y) <==> 0 <= x < 800 && 0 <= y < 600)
      && (forall y :: Dib.InScans(t, y) <==> 0 <= y < 600)
  {
  }

  /** Where the heading's lines land from the initial cursor. */
  lemma HeadingPlacements()
    ensures Placements(StartY, Heading()) == [10, 50, 70, 110]
  {
    var r0 := Heading();
    var r1 := r0[1..];
    assert Placements(10, r0) == [10] + Placements(30, r1);
    var r2 := r1[1..];
    assert Placements(30, r1) == Placements(50, r2);
    var r3 := r2[1..];
    assert Placements(50, r2) == [50] + Placements(70, r3);
    var r4 := r3[1..];
    assert Placements(70, r3) == [70] + Placements(90, r4);
    var r5 := r4[1..];
    assert Placements(90, r4) == Placements(110, r5);
    var r6 := r5[1..];
    assert Placements(110, r5) == [110] + Placements(130, r6);
    assert Placements(130, r6) == [];
  }

  /** Where the footer's line lands from the cursor the items leave, 370. */
  lemma FooterPlacements()
    ensures Placements(370, Footer()) == [410]
  {
    var r0 := Footer();
    assert Placements(370, r0) == Placements(410, r0[1..]);
    assert Placements(410, r0[1..]) == [410] + Placements(430, r0[2..]);
  }

  /** `n` positions one line height apart, the first at `y`. */
  function Spaced(y: int, n: nat): (ps: seq<int>)
    ensures |ps| == n
    decreases n
  {
    if n == 0 then [] else [y] + Spaced(y + LineHeight, n - 1)
  }

  /** A run of text lines with no gap between them is placed one line height apart. */
  lemma {:induction false} OnlyLinesPlacements(y: int, ds: seq<Directive>)
    requires forall k :: 0 <= k < |ds| ==> ds[k].Line?
    ensures Placements(y, ds) == Spaced(y, |ds|)
    decreases |ds|
  {
    if ds != [] {
      OnlyLinesPlacements(y + LineHeight, ds[1..]);
    }
  }

  /** A heading counted as the ticket's is, followed by a body of eleven bare
      lines: the body's lines come one line height apart from 150. */
  lemma HeadingThenItemsPlace(h: seq<Directive>, m: seq<Directive>)
    requires |Lines(h)| == 4 && GapTotal(h) == 60
    requires |m| == 11 && forall k :: 0 <= k < |m| ==> m[k].Line?
    ensures Placements(StartY, h + m) == Placements(StartY, h) + Spaced(150, 11)
    ensures |Lines(h + m)| == 15 && GapTotal(h + m) == 60
  {
    OnlyLines(m);
    OnlyLinesPlacements(150, m);
    PlacementsAppend(StartY, h, m);
    LinesAppend(h, m);
    GapTotalAppend(h, m);
  }

  /** With the heading and footer placed as the ticket's are, the ticket's
      lines land at its sixteen positions. */
  lemma ThreeBlocksPlace(h: seq<Directive>, m: seq<Directive>, f: seq<Directive>)
    requires |Lines(h)| == 4 && GapTotal(h) == 60 && Placements(StartY, h) == [10, 50, 70, 110]
    requires |m| == 11 && forall k :: 0 <= k < |m| ==> m[k].Line?
    requires Placements(370, f) == [410]
    ensures Ys(Run(Start, h + m + f).drawn)
         == [10, 50, 70, 110, 150, 170, 190, 210, 230, 250, 270, 290, 310, 330, 350, 410]
  {
    HeadingThenItemsPlace(h, m);
    PlacementsAppend(StartY, h + m, f);
    RunYs(Start, h + m + f);
    assert Ys(Start.drawn) == [];
    TicketRows();
  }

  /** The sixteen positions of the ticket's lines: the heading's four, the
      eleven item lines one line height apart from 150, and the footer's one. */
  lemma TicketRows()
    ensures [10, 50, 70, 110] + Spaced(150, 11) + [410]
         == [10, 50, 70, 110, 150, 170, 190, 210, 230, 250, 270, 290, 310, 330, 350, 410]
  {
  }

  /** The cursor positions the sixteen lines of the ticket are drawn at. */
  lemma ReceiptLineYs()
    ensures Ys(Run(Start, ReceiptDocument()).drawn)
         == [10, 50, 70, 110, 150, 170, 190, 210, 230, 250, 270, 290, 310, 330, 350, 410]
  {
    HeadingShape();
    ItemsAllLines();
    HeadingPlacements();
    FooterPlacements();
    ThreeBlocksPlace(Heading(), Items(), Footer());
  }
}
