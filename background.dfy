/** The level background's glitch lines and blocks (src/background.py): how
    many are generated and within which ranges, how they age and expire, and
    the one-second regeneration timer. Drawing is not modelled. */
module Backgrounds {
  import opened Constants

  /** One glitch line or block: position, size, RGBA colour and its age in
      frames out of a lifetime. */
  datatype Element = Element(x: int, y: int, width: int, height: int,
                             color: (int, int, int, int), lifetime: int, age: int)

  /** The random draws for one line: random.randint results, passed in. */
  datatype LineDraw = LineDraw(y: int, width: int, x: int, opacity: int,
                               red: int, green: int, blue: int, height: int, lifetime: int)

  /** The random draws for one block. */
  datatype BlockDraw = BlockDraw(x: int, y: int, width: int, height: int, opacity: int,
                                 red: int, green: int, blue: int, lifetime: int)

  predicate InRange(v: int, lo: int, hi: int) { lo <= v <= hi }

  /** The ranges generate_glitch_elements draws a line from; x is drawn after
      the width, so that the line ends on the screen. */
  predicate LineDrawOk(d: LineDraw)
  {
    InRange(d.y, 0, SCREEN_HEIGHT) && InRange(d.width, 50, 200) &&
    InRange(d.x, 0, SCREEN_WIDTH - d.width) && InRange(d.opacity, 20, 60) &&
    InRange(d.red, 100, 255) && InRange(d.green, 100, 255) && InRange(d.blue, 100, 255) &&
    InRange(d.height, 1, 3) && InRange(d.lifetime, 30, 120)
  }

  predicate BlockDrawOk(d: BlockDraw)
  {
    InRange(d.x, 0, SCREEN_WIDTH - 50) && InRange(d.y, 0, SCREEN_HEIGHT - 50) &&
    InRange(d.width, 10, 50) && InRange(d.height, 10, 50) && InRange(d.opacity, 20, 60) &&
    InRange(d.red, 100, 255) && InRange(d.green, 100, 255) && InRange(d.blue, 100, 255) &&
    InRange(d.lifetime, 30, 120)
  }

  /** range(n) has no elements for a negative n. */
  function Count(n: int): nat { if n < 0 then 0 else n }

  /** The draws a generation needs: 2 * level_num lines and level_num blocks,
      all in range. */
  predicate DrawsOk(levelNum: int, lines: seq<LineDraw>, blocks: seq<BlockDraw>)
  {
    |lines| == Count(2 * levelNum) && |blocks| == Count(levelNum) &&
    (forall i :: 0 <= i < |lines| ==> LineDrawOk(lines[i])) &&
    (forall i :: 0 <= i < |blocks| ==> BlockDrawOk(blocks[i]))
  }

  function MakeLine(d: LineDraw): Element
  {
    Element(d.x, d.y, d.width, d.height, (d.red, d.green, d.blue, d.opacity), d.lifetime, 0)
  }

  function MakeBlock(d: BlockDraw): Element
  {
    Element(d.x, d.y, d.width, d.height, (d.red, d.green, d.blue, d.opacity), d.lifetime, 0)
  }

  function MakeLines(ds: seq<LineDraw>): seq<Element>
  {
    if ds == [] then [] else MakeLines(ds[..|ds| - 1]) + [MakeLine(ds[|ds| - 1])]
  }

  function MakeBlocks(ds: seq<BlockDraw>): seq<Element>
  {
    if ds == [] then [] else MakeBlocks(ds[..|ds| - 1]) + [MakeBlock(ds[|ds| - 1])]
  }

  /** A fresh element: age 0 and a lifetime of half a second to two seconds. */
  predicate Fresh(e: Element)
  {
    e.age == 0 && InRange(e.lifetime, 30, 120) && InRange(e.color.3, 20, 60)
  }

  /** A generated line lies on the screen horizontally and is 50 to 200
      pixels wide and 1 to 3 pixels high. */
  predicate LineShape(e: Element)
  {
    InRange(e.width, 50, 200) && InRange(e.height, 1, 3) && 0 <= e.x && e.x + e.width <= SCREEN_WIDTH &&
    InRange(e.y, 0, SCREEN_HEIGHT)
  }

  predicate BlockShape(e: Element)
  {
    InRange(e.width, 10, 50) && InRange(e.height, 10, 50) &&
    InRange(e.x, 0, SCREEN_WIDTH - 50) && InRange(e.y, 0, SCREEN_HEIGHT - 50)
  }

  /** One line per draw, each fresh and of line shape. */
  lemma {:induction false} MakeLinesShape(ds: seq<LineDraw>)
    requires forall i :: 0 <= i < |ds| ==> LineDrawOk(ds[i])
    ensures |MakeLines(ds)| == |ds|
    ensures forall k :: 0 <= k < |ds| ==> MakeLines(ds)[k] == MakeLine(ds[k])
    ensures forall k :: 0 <= k < |ds| ==> Fresh(MakeLines(ds)[k]) && LineShape(MakeLines(ds)[k])
  {
    if ds != [] {
      MakeLinesShape(ds[..|ds| - 1]);
    }
  }

  lemma {:induction false} MakeBlocksShape(ds: seq<BlockDraw>)
    requires forall i :: 0 <= i < |ds| ==> BlockDrawOk(ds[i])
    ensures |MakeBlocks(ds)| == |ds|
    ensures forall k :: 0 <= k < |ds| ==> MakeBlocks(ds)[k] == MakeBlock(ds[k])
    ensures forall k :: 0 <= k < |ds| ==> Fresh(MakeBlocks(ds)[k]) && BlockShape(MakeBlocks(ds)[k])
  {
    if ds != [] {
      MakeBlocksShape(ds[..|ds| - 1]);
    }
  }

  /** A generation gives exactly 2 * level_num lines and level_num blocks,
      all fresh and in range. */
  lemma GenerationCounts(levelNum: int, lines: seq<LineDraw>, blocks: seq<BlockDraw>)
    requires DrawsOk(levelNum, lines, blocks)
    ensures |MakeLines(lines)| == Count(2 * levelNum) && |MakeBlocks(blocks)| == Count(levelNum)
    ensures forall k :: 0 <= k < |MakeLines(lines)| ==> Fresh(MakeLines(lines)[k]) && LineShape(MakeLines(lines)[k])
    ensures forall k :: 0 <= k < |MakeBlocks(blocks)| ==> Fresh(MakeBlocks(blocks)[k]) && BlockShape(MakeBlocks(blocks)[k])
  {
    MakeLinesShape(lines);
    MakeBlocksShape(blocks);
  }

  function Older(e: Element): Element { e.(age := e.age + 1) }

  /** The ageing loop of Background.update: every element grows one frame
      older, and those whose age reaches the lifetime are removed. */
  function AgeAll(es: seq<Element>): seq<Element>
  {
    if es == [] then []
    else
      var e := Older(es[|es| - 1]);
      AgeAll(es[..|es| - 1]) + (if e.age >= e.lifetime then [] else [e])
  }

  /** Ageing works element by element, so it keeps the order of the list. */
  lemma {:induction false} AgeAllAppend(a: seq<Element>, b: seq<Element>)
    ensures AgeAll(a + b) == AgeAll(a) + AgeAll(b)
  {
    if b != [] {
      var b0 := b[..|b| - 1];
      assert (a + b)[..|a + b| - 1] == a + b0;
      assert (a + b)[|a + b| - 1] == b[|b| - 1];
      AgeAllAppend(a, b0);
    } else {
      assert a + b == a;
    }
  }

  /** The survivors are exactly the aged elements that have not reached their
      lifetime. */
  lemma {:induction false} AgeAllSurvivors(es: seq<Element>)
    ensures var r := AgeAll(es);
            |r| <= |es| &&
            (forall k :: 0 <= k < |r| ==> r[k].age < r[k].lifetime) &&
            (forall k :: 0 <= k < |r| ==> exists i :: 0 <= i < |es| && r[k] == Older(es[i])) &&
            (forall i :: 0 <= i < |es| && es[i].age + 1 < es[i].lifetime ==> Older(es[i]) in r)
  {
    if es != [] {
      var init := es[..|es| - 1];
      AgeAllSurvivors(init);
      var r := AgeAll(es);
      var e := Older(es[|es| - 1]);
      assert r == AgeAll(init) + (if e.age >= e.lifetime then [] else [e]);
      forall k | 0 <= k < |r|
        ensures exists i :: 0 <= i < |es| && r[k] == Older(es[i])
      {
        if k < |AgeAll(init)| {
          var i :| 0 <= i < |init| && AgeAll(init)[k] == Older(init[i]);
          assert es[i] == init[i];
        } else {
          assert r[k] == Older(es[|es| - 1]);
        }
      }
      forall i | 0 <= i < |es| && es[i].age + 1 < es[i].lifetime
        ensures Older(es[i]) in r
      {
        if i < |init| {
          assert es[i] == init[i];
          assert Older(init[i]) in AgeAll(init);
        }
      }
    }
  }

  /** The base colour of the procedural background. */
  function BgColor(levelNum: int): (c: (int, int, int))
    ensures levelNum == 1 ==> c == (20, 20, 35)
    ensures levelNum == 2 ==> c == (25, 10, 40)
    ensures levelNum != 1 && levelNum != 2 ==> c == (40, 5, 20)
  {
    if levelNum == 1 then (20, 20, 35) else if levelNum == 2 then (25, 10, 40) else (40, 5, 20)
  }

  /** Frames between two regeneration rolls, and the chance of each roll. */
  const REGEN_PERIOD: int := 60
  const REGEN_CHANCE: real := 0.2

  /** The background as a value. */
  datatype BackgroundState = BackgroundState(lines: seq<Element>, blocks: seq<Element>, timer: int)

  /** Background.update: roll is random.random(); the draws are used only when
      the roll regenerates the elements. */
  function BackgroundTick(s: BackgroundState, roll: real, lines: seq<LineDraw>, blocks: seq<BlockDraw>): BackgroundState
  {
    var t := s.timer + 1;
    var s1 := if t >= REGEN_PERIOD then
                if roll < REGEN_CHANCE then BackgroundState(MakeLines(lines), MakeBlocks(blocks), 0)
                else s.(timer := 0)
              else s.(timer := t);
    s1.(lines := AgeAll(s1.lines), blocks := AgeAll(s1.blocks))
  }

  /** The timer stays in [0, 59]; new elements appear only on the frame the
      timer wraps and the roll is below 0.2, and then they are the
      generated ones aged once; on every other frame the old elements age. */
  lemma BackgroundTickTimer(s: BackgroundState, roll: real, lines: seq<LineDraw>, blocks: seq<BlockDraw>)
    requires 0 <= s.timer < REGEN_PERIOD
    ensures var r := BackgroundTick(s, roll, lines, blocks);
            0 <= r.timer < REGEN_PERIOD &&
            (r.timer == 0 <==> s.timer == REGEN_PERIOD - 1) &&
            (s.timer == REGEN_PERIOD - 1 && roll < REGEN_CHANCE ==>
               r.lines == AgeAll(MakeLines(lines)) && r.blocks == AgeAll(MakeBlocks(blocks))) &&
            (s.timer < REGEN_PERIOD - 1 || roll >= REGEN_CHANCE ==>
               r.lines == AgeAll(s.lines) && r.blocks == AgeAll(s.blocks))
  {
  }

  /** Freshly generated elements all survive their first ageing, since every
      lifetime is at least 30 frames. */
  lemma {:induction false} FreshSurviveFirstFrame(es: seq<Element>)
    requires forall k :: 0 <= k < |es| ==> Fresh(es[k])
    ensures AgeAll(es) == seq(|es|, k requires 0 <= k < |es| => Older(es[k]))
  {
    if es != [] {
      FreshSurviveFirstFrame(es[..|es| - 1]);
    }
  }

  class Background {
    const levelNum: int
    const bgColor: (int, int, int)
    var glitchLines: seq<Element>
    var glitchBlocks: seq<Element>
    var glitchTimer: int

    function State(): BackgroundState
      reads this
    {
      BackgroundState(glitchLines, glitchBlocks, glitchTimer)
    }

    /** Background.__init__ without the image probe. */
    constructor (levelNum: int, lines: seq<LineDraw>, blocks: seq<BlockDraw>)
      requires DrawsOk(levelNum, lines, blocks)
      ensures this.levelNum == levelNum && bgColor == BgColor(levelNum)
      ensures State() == BackgroundState(MakeLines(lines), MakeBlocks(blocks), 0)
    {
      this.levelNum := levelNum;
      bgColor := BgColor(levelNum);
      glitchLines, glitchBlocks := [], [];
      glitchTimer := 0;
      new;
      GenerateGlitchElements(lines, blocks);
    }

    /** Background.generate_glitch_elements. */
    method GenerateGlitchElements(lines: seq<LineDraw>, blocks: seq<BlockDraw>)
      requires DrawsOk(levelNum, lines, blocks)
      modifies this
      ensures State() == old(State()).(lines := MakeLines(lines), blocks := MakeBlocks(blocks))
    {
      glitchLines := [];
      glitchBlocks := [];
      var numLines := 2 * levelNum;
      var i := 0;
      while i < numLines
        invariant 0 <= i <= Count(numLines)
        invariant glitchLines == MakeLines(lines[..i]) && glitchBlocks == []
        invariant glitchTimer == old(glitchTimer)
      {
        assert lines[..i + 1][..i] == lines[..i];
        glitchLines := glitchLines + [MakeLine(lines[i])];
        i := i + 1;
      }
      assert lines[..Count(numLines)] == lines;
      var numBlocks := levelNum;
      i := 0;
      assert blocks[..0] == [];
      while i < numBlocks
        invariant 0 <= i <= Count(numBlocks)
        invariant glitchBlocks == MakeBlocks(blocks[..i]) && glitchLines == MakeLines(lines)
        invariant glitchTimer == old(glitchTimer)
      {
        assert blocks[..i + 1][..i] == blocks[..i];
        glitchBlocks := glitchBlocks + [MakeBlock(blocks[i])];
        i := i + 1;
      }
      assert blocks[..Count(numBlocks)] == blocks;
    }

    /** The ageing loop over one list. */
    static method AgeElements(es: seq<Element>) returns (kept: seq<Element>)
      ensures kept == AgeAll(es)
    {
      kept := [];
      var i := 0;
      while i < |es|
        invariant 0 <= i <= |es|
        invariant kept == AgeAll(es[..i])
      {
        assert es[..i + 1][..i] == es[..i];
        var e := Older(es[i]);
        if e.age < e.lifetime {
          kept := kept + [e];
        }
        i := i + 1;
      }
      assert es[..|es|] == es;
    }

    /** Background.update. */
    method Update(roll: real, lines: seq<LineDraw>, blocks: seq<BlockDraw>)
      requires 0.0 <= roll < 1.0
      requires glitchTimer + 1 >= REGEN_PERIOD && roll < REGEN_CHANCE ==> DrawsOk(levelNum, lines, blocks)
      modifies this
      ensures State() == BackgroundTick(old(State()), roll, lines, blocks)
    {
      glitchTimer := glitchTimer + 1;
      if glitchTimer >= REGEN_PERIOD {
        glitchTimer := 0;
        if roll < REGEN_CHANCE {
          GenerateGlitchElements(lines, blocks);
        }
      }
      glitchLines := AgeElements(glitchLines);
      glitchBlocks := AgeElements(glitchBlocks);
    }
  }
}
