/**
 * The per-frame presentation state machine of the `main` loop in src/main.rs:
 * the title and note screens, the courtroom play driven by `loop_counter`
 * (fade byte `sat_counter`, typewriter cursor `x`) and the credits screen.
 */
module Presentation {
  import opened Wrappers

  /** `u16::MAX`, the state of the credits screen. */
  const U16Max := 65535

  /** Frames of the courtroom play after which `loop_counter` resets and the state advances. */
  const PlayLength := 4400

  /** The dialogue of the play: the three pages the typewriter reveals, in order. */
  datatype Script = Script(page1: string, page2: string, page3: string)

  /** The pages as the courtroom shows them. */
  const Dialogue := Script(
    "Steve looks at the jury and sees one juror staring at him.\nHe looks back at them and makes eye contact.\nHe notices the juror has a somewhat disgusted facial expression.\nAs he continues looking over, he wonders why.\nHe flashes back to the start of the trial and what O\'Brien said:\n\"You\'re young, you\'re black, and you\'re on trial: what else do they need to know?\"",
    "To try and break the ice, he waves.\nThe juror snarls and looks away.\nWith a heavy heart, he looks up at the American flag over the judge and places his trust in the 12 members of the jury who are the ones to decide his fate.\nHe knows he is innocent and hopes the justice system sees him the same way.",
    "But as he thinks of all this, he worries more and more about the mainly white jury. He flashes back to O\'Brien\'s statement again, and just can\'t get it out of his mind. It\'s hard not to be worried or stressed under this situation.\nSteve is handling it remarkably well.")

  lemma DialogueLengths()
    ensures |Dialogue.page1| == 362 && |Dialogue.page2| == 300 && |Dialogue.page3| == 268
  {
  }

  /** Debug builds start in the courtroom and have no state 3 arm; release builds start at the title. */
  datatype Build = Debug | Release

  /** The source's `u8` and `u16`. */
  type Byte = n: int | 0 <= n <= 255
  type U16 = n: int | 0 <= n <= 65535

  /** The four variables the loop mutates: `game_state`, `loop_counter`, `sat_counter` and `x`. */
  datatype Timeline = Timeline(gameState: U16, loopCounter: int, satCounter: Byte, x: nat)

  /** What one frame shows besides its fixed drawings. */
  datatype Frame =
    | TitleScreen
    | NoteScreen
    | Courtroom(overlay: Option<int>, panel: Option<string>)  // fade alpha drawn, dialogue text drawn
    | Blank                                                   // release state 3, drawn as an empty frame
    | CreditsScreen

  /** A frame is drawn, or the loop hits `unreachable!()` (a panic) or `unreachable_unchecked()`. */
  datatype Outcome = Drawn(frame: Frame) | Panicked | Undefined

  function Start(b: Build): Timeline {
    Timeline(if b == Debug then 2 else 0, 0, 255, 0)
  }

  function Min(a: int, b: int): int { if a <= b then a else b }
  function Max(a: int, b: int): int { if a >= b then a else b }

  /** `u8::saturating_sub` and `u8::saturating_add` on a byte. */
  function SaturatingSub(v: int, d: nat): (r: int)
    requires 0 <= v <= 255
    ensures 0 <= r <= 255 && r == Max(0, v - d)
  {
    if v < d then 0 else v - d
  }

  function SaturatingAdd(v: int, d: nat): (r: int)
    requires 0 <= v <= 255
    ensures 0 <= r <= 255 && r == Min(255, v + d)
  {
    if v + d > 255 then 255 else v + d
  }

  /** Rust's `text.get(0..x)` on an ASCII string: defined exactly up to the text's length. */
  function Slice(text: string, x: int): Option<string> {
    if 0 <= x <= |text| then Some(text[..x]) else None
  }

  /** The text the typewriter shows: the first `x` characters, or the whole text once `x` passes its end. */
  function Reveal(text: string, x: nat): (r: string)
    ensures |r| == Min(x, |text|) && r <= text
  {
    match Slice(text, x)
    case Some(t) => t
    case None => text
  }

  /** A longer cursor never shows less. */
  lemma RevealMonotone(text: string, x: nat, y: nat)
    requires x <= y
    ensures Reveal(text, x) <= Reveal(text, y)
  {
  }

  // ------------------------------------------------------ one courtroom frame

  /** The frames during which the dialogue panel is drawn. */
  predicate PanelOpen(lc: int) {
    150 < lc < 1550 || 1600 < lc < 2800 || 2900 < lc < 4200
  }

  /** The dialogue page whose panel is visible while processing frame `lc`. */
  function PageAt(sc: Script, lc: int): (r: Option<string>)
    ensures r.Some? <==> PanelOpen(lc)
  {
    if 150 < lc < 1550 then Some(sc.page1)
    else if 1600 < lc < 2800 then Some(sc.page2)
    else if 2900 < lc < 4200 then Some(sc.page3)
    else None
  }

  /** The fade overlay is drawn, at the current alpha, during the first 100 frames and after frame 4300. */
  function Overlay(lc: int, sat: int): Option<int> {
    if lc < 100 || lc > 4300 then Some(sat) else None
  }

  function FadeStep(lc: int, sat: int): (r: int)
    requires 0 <= sat <= 255
    ensures 0 <= r <= 255
    ensures lc < 100 ==> r == Max(0, sat - 4)
    ensures lc > 4300 ==> r == Min(255, sat + 4)
    ensures 100 <= lc <= 4300 ==> r == sat
  {
    if lc < 100 then SaturatingSub(sat, 4)
    else if lc > 4300 then SaturatingAdd(sat, 4)
    else sat
  }

  function CursorStep(lc: int, x: int): (r: int)
    ensures PanelOpen(lc) ==> r == x + (if lc % 3 == 0 then 1 else 0)
    ensures lc == 1599 || lc == 2801 ==> r == 0
    ensures !PanelOpen(lc) && lc != 1599 && lc != 2801 ==> r == x
  {
    if 150 < lc < 1550 then (if lc % 3 == 0 then x + 1 else x)
    else if lc == 1599 || lc == 2801 then 0
    else if 1600 < lc < 2800 then (if lc % 3 == 0 then x + 1 else x)
    else if 2900 < lc < 4200 then (if lc % 3 == 0 then x + 1 else x)
    else x
  }

  /** The set of states the loop can be in, for each build. */
  ghost predicate Reachable(b: Build, s: Timeline) {
    && 0 <= s.loopCounter <= PlayLength
    && (s.gameState != 2 ==> s.loopCounter == 0)
    && (if b == Release then s.gameState in {0, 1, 2, 3, U16Max} else s.gameState in {2, 3})
  }

  /** One pass of the loop body: the new variables and what the frame shows. */
  function Next(b: Build, sc: Script, s: Timeline, enter: bool): (r: (Timeline, Outcome))
    ensures Reachable(b, s) ==> Reachable(b, r.0)
    ensures s.gameState in {0, 1} ==>
      r.0 == s.(gameState := s.gameState + (if enter then 1 else 0))
    ensures s.gameState == 2 ==>
      && r.0.loopCounter == (if s.loopCounter + 1 > PlayLength then 0 else s.loopCounter + 1)
      && r.0.gameState == (if s.loopCounter + 1 > PlayLength then 3 else 2)
      && r.0.satCounter == FadeStep(s.loopCounter, s.satCounter)
      && r.0.x == CursorStep(s.loopCounter, s.x)
      && r.1 == Drawn(Courtroom(Overlay(s.loopCounter, s.satCounter),
                                if PageAt(sc, s.loopCounter).Some? then Some(Reveal(PageAt(sc, s.loopCounter).value, r.0.x)) else None))
    ensures s.gameState == 3 ==>
      if b == Release then r == (s.(gameState := U16Max), Drawn(Blank)) else r == (s, Panicked)
    ensures s.gameState == U16Max ==> r == (s, Drawn(CreditsScreen))
    ensures r.1 == Undefined <==> b == Release && s.gameState !in {0, 1, 2, 3, U16Max}
    ensures r.1 == Panicked <==> b == Debug && s.gameState !in {0, 1, 2, U16Max}
    ensures Reachable(b, s) ==> r.1 != Undefined && (r.1 == Panicked <==> b == Debug && s.gameState == 3)
  {
    var gs, lc, sat, x := s.gameState, s.loopCounter, s.satCounter, s.x;
    if gs == 0 then
      (if enter then s.(gameState := 1) else s, Drawn(TitleScreen))
    else if gs == 1 then
      (if enter then s.(gameState := 2) else s, Drawn(NoteScreen))
    else if gs == 2 then
      var x' := CursorStep(lc, x);
      var panel := match PageAt(sc, lc) case Some(page) => Some(Reveal(page, x')) case None => None;
      var lc' := lc + 1;
      var t := if lc' > PlayLength then Timeline(3, 0, FadeStep(lc, sat), x')
               else Timeline(2, lc', FadeStep(lc, sat), x');
      (t, Drawn(Courtroom(Overlay(lc, sat), panel)))
    else if gs == 3 && b == Release then
      (s.(gameState := U16Max), Drawn(Blank))
    else if gs == U16Max then
      (s, Drawn(CreditsScreen))
    else
      (s, if b == Debug then Panicked else Undefined)
  }

  // ------------------------------------------------- the whole courtroom play

  /** The multiples of 3 in [lo, hi]: how often the cursor of a page opened at `lo` advanced by frame `hi`. */
  function Ticks(lo: nat, hi: int): nat
    requires lo >= 1
  {
    if hi < lo then 0 else hi / 3 - (lo - 1) / 3
  }

  /** The fade byte after `k` courtroom frames: down by 4 a frame to 0, then up by 4 a frame after frame 4300. */
  function SatAfter(k: nat): Byte {
    if k <= 100 then Max(0, 255 - 4 * k)
    else if k <= 4301 then 0
    else Min(255, 4 * (k - 4301))
  }

  /** The typewriter cursor after `k` courtroom frames, the last of them numbered `k - 1`. */
  function CursorAfter(k: nat): int {
    var m := k - 1;
    if m < 1599 then Ticks(151, Min(m, 1549))
    else if m < 2801 then Ticks(1601, Min(m, 2799))
    else Ticks(2901, Min(m, 4199))
  }

  /** The loop variables `k` frames after entering the courtroom. */
  function Played(k: nat): Timeline
    requires k <= PlayLength
  {
    Timeline(2, k, SatAfter(k), CursorAfter(k))
  }

  lemma TicksStep(lo: nat, hi: int)
    requires lo >= 1 && hi >= lo - 1
    ensures Ticks(lo, hi + 1) == Ticks(lo, hi) + (if (hi + 1) % 3 == 0 then 1 else 0)
  {
  }

  /** Every courtroom frame moves the closed form one frame on, whatever the input. */
  lemma {:induction false} PlayStep(b: Build, sc: Script, k: nat, enter: bool)
    requires k < PlayLength
    ensures Reachable(b, Played(k))
    ensures Next(b, sc, Played(k), enter).0 == Played(k + 1)
  {
    var t := Next(b, sc, Played(k), enter).0;
    if 150 < k < 1550 {
      TicksStep(151, k - 1);
    } else if 1600 < k < 2800 {
      TicksStep(1601, k - 1);
    } else if 2900 < k < 4200 {
      TicksStep(2901, k - 1);
    }
    assert t.x == CursorAfter(k + 1);
  }

  /** The frame after the last one of the play: state 3, counter back to 0, fade back at 255. */
  lemma PlayEnds(b: Build, sc: Script, enter: bool)
    ensures Reachable(b, Played(PlayLength))
    ensures Next(b, sc, Played(PlayLength), enter).0 == Timeline(3, 0, 255, 433)
  {
    assert CursorAfter(PlayLength) == 433;
  }

  /** The loop variables after a sequence of frames, one ENTER flag per frame. */
  ghost function Run(b: Build, sc: Script, s: Timeline, frames: seq<bool>): Timeline
    decreases |frames|
  {
    if frames == [] then s else Run(b, sc, Next(b, sc, s, frames[0]).0, frames[1..])
  }

  lemma {:induction false} RunConcat(b: Build, sc: Script, s: Timeline, f: seq<bool>, g: seq<bool>)
    requires Reachable(b, s)
    ensures Run(b, sc, s, f + g) == Run(b, sc, Run(b, sc, s, f), g)
    decreases |f|
  {
    if f != [] {
      assert (f + g)[0] == f[0] && (f + g)[1..] == f[1..] + g;
      RunConcat(b, sc, Next(b, sc, s, f[0]).0, f[1..], g);
    } else {
      assert f + g == g;
    }
  }

  /** Inside the courtroom the counter is the frame count and ENTER is ignored. */
  lemma {:induction false} PlayFrom(b: Build, sc: Script, k: nat, frames: seq<bool>)
    requires k + |frames| <= PlayLength
    ensures Reachable(b, Played(k))
    ensures Run(b, sc, Played(k), frames) == Played(k + |frames|)
    decreases |frames|
  {
    if k < PlayLength {
      PlayStep(b, sc, k, false);
    }
    if frames != [] {
      PlayStep(b, sc, k, frames[0]);
      PlayFrom(b, sc, k + 1, frames[1..]);
    }
  }

  /** The credits screen never changes the state again. */
  lemma {:induction false} CreditsAreFinal(b: Build, sc: Script, s: Timeline, frames: seq<bool>)
    requires s.gameState == U16Max
    ensures Run(b, sc, s, frames) == s
    decreases |frames|
  {
    if frames != [] {
      CreditsAreFinal(b, sc, s, frames[1..]);
    }
  }

  /**
   * A release run: ENTER on the title, ENTER on the note, then 4401 frames
   * of courtroom with any input reach state 3 with the counter at 0, and the
   * next frame reaches the credits, where the state stays.
   */
  lemma ReleaseRun(sc: Script, play: seq<bool>, later: seq<bool>)
    requires |play| == PlayLength + 1
    ensures Reachable(Release, Start(Release))
    ensures Run(Release, sc, Start(Release), [true, true]) == Played(0)
    ensures Run(Release, sc, Start(Release), [true, true] + play) == Timeline(3, 0, 255, 433)
    ensures Run(Release, sc, Start(Release), [true, true] + play + [false] + later) == Timeline(U16Max, 0, 255, 433)
  {
    var s0 := Start(Release);
    var entry := Run(Release, sc, s0, [true, true]);
    assert entry == Played(0) by {
      assert [true, true][1..] == [true];
      assert [true][1..] == [];
    }
    RunConcat(Release, sc, s0, [true, true], play);
    RunConcat(Release, sc, entry, play[..PlayLength], play[PlayLength..]);
    assert play[..PlayLength] + play[PlayLength..] == play;
    PlayFrom(Release, sc, 0, play[..PlayLength]);
    PlayEnds(Release, sc, play[PlayLength]);
    var ended := Timeline(3, 0, 255, 433);
    assert Run(Release, sc, Played(PlayLength), play[PlayLength..]) == ended by {
      assert play[PlayLength..][1..] == [];
    }
    RunConcat(Release, sc, s0, [true, true] + play, [false] + later);
    assert [true, true] + play + [false] + later == ([true, true] + play) + ([false] + later);
    var credits := Timeline(U16Max, 0, 255, 433);
    assert Run(Release, sc, ended, [false] + later) == Run(Release, sc, credits, later) by {
      assert ([false] + later)[1..] == later;
    }
    CreditsAreFinal(Release, sc, credits, later);
  }

  /** A debug run enters the courtroom directly and panics on the frame after the play. */
  lemma DebugRun(sc: Script, play: seq<bool>, enter: bool)
    requires |play| == PlayLength + 1
    ensures Reachable(Debug, Start(Debug))
    ensures Start(Debug) == Played(0)
    ensures Run(Debug, sc, Start(Debug), play) == Timeline(3, 0, 255, 433)
    ensures Next(Debug, sc, Run(Debug, sc, Start(Debug), play), enter).1 == Panicked
  {
    var ended := Timeline(3, 0, 255, 433);
    assert Start(Debug) == Played(0);
    RunConcat(Debug, sc, Played(0), play[..PlayLength], play[PlayLength..]);
    assert play[..PlayLength] + play[PlayLength..] == play;
    PlayFrom(Debug, sc, 0, play[..PlayLength]);
    PlayEnds(Debug, sc, play[PlayLength]);
    assert Run(Debug, sc, Played(PlayLength), play[PlayLength..]) == ended by {
      assert play[PlayLength..][1..] == [];
    }
    assert Next(Debug, sc, ended, enter).1 == Panicked;
  }

  /** The dialogue text frame `k` of the play shows: the page's first `Ticks` characters. */
  lemma PanelAt(b: Build, sc: Script, k: nat, enter: bool)
    requires k <= PlayLength
    ensures Reachable(b, Played(k))
    ensures Next(b, sc, Played(k), enter).1.frame.panel ==
      if 150 < k < 1550 then Some(Reveal(sc.page1, Ticks(151, k)))
      else if 1600 < k < 2800 then Some(Reveal(sc.page2, Ticks(1601, k)))
      else if 2900 < k < 4200 then Some(Reveal(sc.page3, Ticks(2901, k)))
      else None
  {
  }

  /** Once the cursor reaches a page's length the whole page is shown. */
  lemma RevealAll(text: string, x: nat)
    requires x >= |text|
    ensures Reveal(text, x) == text
  {
    var r := Reveal(text, x);
    assert |r| == |text| && r <= text;
  }

  /**
   * Each page of the dialogue is shown in full well before its panel closes,
   * and while a panel is open its text only grows.
   */
  lemma PagesComplete(b: Build, sc: Script, k: nat, enter: bool)
    requires k < PlayLength
    requires |sc.page1| == 362 && |sc.page2| == 300 && |sc.page3| == 268
    ensures Reachable(b, Played(k)) && Reachable(b, Played(k + 1))
    ensures 1236 <= k < 1550 ==> Next(b, sc, Played(k), enter).1.frame.panel == Some(sc.page1)
    ensures 2499 <= k < 2800 ==> Next(b, sc, Played(k), enter).1.frame.panel == Some(sc.page2)
    ensures 3702 <= k < 4200 ==> Next(b, sc, Played(k), enter).1.frame.panel == Some(sc.page3)
    ensures PageAt(sc, k).Some? && PageAt(sc, k) == PageAt(sc, k + 1) ==>
      Next(b, sc, Played(k), enter).1.frame.panel.value <= Next(b, sc, Played(k + 1), enter).1.frame.panel.value
  {
    PanelAt(b, sc, k, enter);
    PanelAt(b, sc, k + 1, enter);
    if 1236 <= k < 1550 {
      RevealAll(sc.page1, Ticks(151, k));
    } else if 2499 <= k < 2800 {
      RevealAll(sc.page2, Ticks(1601, k));
    } else if 3702 <= k < 4200 {
      RevealAll(sc.page3, Ticks(2901, k));
    }
  }

  /** The fade overlay and the dialogue panel are never drawn in the same frame. */
  lemma OverlayAndPanelExclusive(b: Build, sc: Script, k: nat, enter: bool)
    requires k <= PlayLength
    ensures Reachable(b, Played(k))
    ensures var f := Next(b, sc, Played(k), enter).1.frame; f.overlay.None? || f.panel.None?
  {
  }

  // ----------------------------------------------------- the loop as a class

  /** The loop's mutable variables, updated in place once per frame. */
  class Machine {
    const build: Build
    const script: Script
    var gameState: U16
    var loopCounter: int
    var satCounter: Byte
    var x: nat

    function State(): Timeline
      reads this
    {
      Timeline(gameState, loopCounter, satCounter, x)
    }

    ghost predicate Valid()
      reads this
    {
      Reachable(build, State())
    }

    constructor (b: Build)
      ensures build == b && script == Dialogue && Valid() && State() == Start(b)
    {
      build := b;
      script := Dialogue;
      gameState := if b == Debug then 2 else 0;
      loopCounter := 0;
      satCounter := 255;
      x := 0;
    }

    /** One frame, given whether ENTER was pressed during it. */
    method Step(enter: bool) returns (outcome: Outcome)
      requires Valid()
      modifies this
      ensures Valid()
      ensures (State(), outcome) == Next(build, script, old(State()), enter)
    {
      if gameState == 0 {
        if enter {
          gameState := gameState + 1;
        }
        outcome := Drawn(TitleScreen);
      } else if gameState == 1 {
        if enter {
          gameState := gameState + 1;
        }
        outcome := Drawn(NoteScreen);
      } else if gameState == 2 {
        var overlay: Option<int> := None;
        if loopCounter < 100 {
          overlay := Some(satCounter);
          satCounter := if satCounter < 4 then 0 else satCounter - 4;
        } else if loopCounter > 4300 {
          overlay := Some(satCounter);
          satCounter := if satCounter + 4 > 255 then 255 else satCounter + 4;
        }
        var panel: Option<string> := None;
        if loopCounter > 150 && loopCounter < 1550 {
          if loopCounter % 3 == 0 {
            x := x + 1;
          }
          panel := Some(Reveal(script.page1, x));
        } else if loopCounter == 1599 || loopCounter == 2801 {
          x := 0;
        } else if loopCounter > 1600 && loopCounter < 2800 {
          if loopCounter % 3 == 0 {
            x := x + 1;
          }
          panel := Some(Reveal(script.page2, x));
        } else if loopCounter > 2900 && loopCounter < 4200 {
          if loopCounter % 3 == 0 {
            x := x + 1;
          }
          panel := Some(Reveal(script.page3, x));
        }
        loopCounter := loopCounter + 1;
        if loopCounter > PlayLength {
          loopCounter := 0;
          gameState := gameState + 1;
        }
        outcome := Drawn(Courtroom(overlay, panel));
      } else if build == Release && gameState == 3 {
        gameState := U16Max;
        outcome := Drawn(Blank);
      } else if gameState == U16Max {
        outcome := Drawn(CreditsScreen);
      } else if build == Debug {
        outcome := Panicked;
      } else {
        outcome := Undefined;
      }
    }
  }
}
