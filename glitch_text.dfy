/**
 * The glitch text (`GlitchTextComponent`): shown as is, or revealed from left
 * to right behind random characters, one third of a character per tick of a
 * 30 ms interval. The random picks of a tick are a parameter, and the
 * iteration counter is kept exactly as the number of ticks so far (the
 * iteration is a third of it).
 */
module GlitchText {

  /** The characters the scramble draws from, as the component spells them. */
  const ScrambleChars: string := "!<>-_\\/[]{}\U{00E2}\U{20AC}\U{201D}=+*^?#________"

  /** A position is revealed once the iteration, `ticks / 3`, has passed it. */
  predicate Revealed(index: nat, ticks: nat)
  {
    3 * index < ticks
  }

  /** With the iteration kept as the exact third `ticks / 3`, the test is `index < iteration`. */
  lemma RevealedMeans(index: nat, ticks: nat)
    ensures Revealed(index, ticks) <==> (index as real) < (ticks as real) / 3.0
  {
  }

  /** One tick's picks: an index into the scramble characters per position. */
  predicate Picks(picks: seq<nat>, text: string)
  {
    |picks| == |text| && forall k :: 0 <= k < |picks| ==> picks[k] < |ScrambleChars|
  }

  /** The `split('')`/`map`/`join('')` of one tick. */
  function Frame(text: string, ticks: nat, picks: seq<nat>): (r: string)
    requires Picks(picks, text)
    ensures |r| == |text|
    ensures forall k :: 0 <= k < |text| && Revealed(k, ticks) ==> r[k] == text[k]
    ensures forall k :: 0 <= k < |text| && !Revealed(k, ticks) ==> r[k] in ScrambleChars
  {
    seq(|text|, k requires 0 <= k < |text| => if Revealed(k, ticks) then text[k] else ScrambleChars[picks[k]])
  }

  /** How many positions `ticks` ticks reveal: the ceiling of the iteration. */
  function RevealedCount(ticks: nat): (n: nat)
    ensures forall k: nat :: Revealed(k, ticks) <==> k < n
  {
    (ticks + 2) / 3
  }

  /**
   * The frame shows the text on its first `RevealedCount` positions, and a
   * later tick reveals at least as many: the revealed prefix never shrinks.
   */
  lemma RevealGrows(text: string, ticks: nat, later: nat, picks: seq<nat>, laterPicks: seq<nat>)
    requires ticks <= later && Picks(picks, text) && Picks(laterPicks, text)
    ensures RevealedCount(ticks) <= RevealedCount(later)
    ensures var n := if RevealedCount(ticks) < |text| then RevealedCount(ticks) else |text|;
            Frame(text, ticks, picks)[..n] == text[..n] && Frame(text, later, laterPicks)[..n] == text[..n]
  {
    var n := if RevealedCount(ticks) < |text| then RevealedCount(ticks) else |text|;
    forall k | 0 <= k < n
      ensures Revealed(k, ticks) && Revealed(k, later)
    {
    }
    assert Frame(text, ticks, picks)[..n] == text[..n];
    assert Frame(text, later, laterPicks)[..n] == text[..n];
  }

  /** Once the iteration reaches the length, the frame is the text itself, whatever the picks. */
  lemma FinalFrame(text: string, ticks: nat, picks: seq<nat>)
    requires Picks(picks, text) && ticks >= 3 * |text|
    ensures Frame(text, ticks, picks) == text
  {
    var r := Frame(text, ticks, picks);
    forall k | 0 <= k < |text|
      ensures r[k] == text[k]
    {
      assert Revealed(k, ticks);
    }
  }

  /** The component's inputs and state; `running` says whether the interval is still set. */
  class GlitchTextComponent {
    const text: string
    const scramble: bool
    var displayText: string
    var originalText: string
    var ticks: nat
    var running: bool
    var started: bool

    /**
     * A running interval has not passed the stopping tick, and one that
     * stopped itself left the original text on display.
     */
    ghost predicate Valid()
      reads this
    {
      (running ==> started && ticks <= 3 * |originalText|)
      && (started && !running ==> displayText == originalText)
    }

    constructor (text: string, scramble: bool)
      ensures Valid() && this.text == text && this.scramble == scramble
      ensures displayText == "" && !running && !started
    {
      this.text := text;
      this.scramble := scramble;
      displayText := "";
      originalText := "";
      ticks := 0;
      running := false;
      started := false;
    }

    /** `ngOnInit`: start the scramble, or show the text as is. */
    method Init()
      requires Valid() && !started
      modifies this
      ensures Valid()
      ensures !scramble ==> displayText == text && !running && !started
      ensures scramble ==> running && started && ticks == 0 && originalText == text
      ensures scramble ==> displayText == old(displayText)
    {
      if scramble {
        ticks := 0;
        originalText := text;
        running := true;
        started := true;
      } else {
        displayText := text;
      }
    }

    /**
     * One run of the interval callback with this tick's picks: show the
     * frame, stop the interval once the iteration reached the length, and
     * advance the iteration by a third.
     */
    method Tick(picks: seq<nat>)
      requires Valid() && running && Picks(picks, originalText)
      modifies this
      ensures Valid()
      ensures ticks == old(ticks) + 1 && originalText == old(originalText) && started
      ensures displayText == Frame(originalText, old(ticks), picks)
      ensures running <==> old(ticks) < 3 * |originalText|
      ensures !running ==> displayText == originalText
    {
      displayText := Frame(originalText, ticks, picks);
      if ticks >= 3 * |originalText| {
        FinalFrame(originalText, ticks, picks);
        running := false;
      }
      ticks := ticks + 1;
    }
  }
}
