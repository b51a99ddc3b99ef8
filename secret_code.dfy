/**
 * The Konami-code detector (`SecretCodeService`): a sliding window over the
 * last ten keys, armed and disarmed by the arcade game.
 */
module SecretCode {

  /** The code the detector waits for, oldest key first. */
  const KonamiCode: seq<string> :=
    ["ArrowUp", "ArrowUp", "ArrowDown", "ArrowDown", "ArrowLeft",
     "ArrowRight", "ArrowLeft", "ArrowRight", "b", "a"]

  /** The window length: the code's length. */
  const WindowSize: nat := 10

  /** The code's last key occurs nowhere earlier in it. */
  ghost predicate LastKeyUnique(code: seq<string>)
  {
    |code| > 0 && forall i :: 0 <= i < |code| - 1 ==> code[i] != code[|code| - 1]
  }

  lemma KonamiCodeFacts()
    ensures |KonamiCode| == WindowSize
    ensures LastKeyUnique(KonamiCode)
  {
  }

  /** `checkSequence` against a code: same length and equal at every index. */
  function Matches(window: seq<string>, code: seq<string>): (matched: bool)
    ensures matched <==> window == code
  {
    if |window| != |code| then false
    else forall i :: 0 <= i < |window| ==> window[i] == code[i]
  }

  /** `push` the key, then `shift` once when the window outgrew the code. */
  function Push(window: seq<string>, key: string): (r: seq<string>)
    requires |window| <= WindowSize
    ensures |r| <= WindowSize
    ensures |r| == if |window| < WindowSize then |window| + 1 else WindowSize
    ensures r[|r| - 1] == key
  {
    var s := window + [key];
    if |s| > WindowSize then s[1..] else s
  }

  /** Every key but the pushed one comes from the end of the old window. */
  lemma PushKeepsOlderKeys(window: seq<string>, key: string)
    requires |window| <= WindowSize
    ensures var r := Push(window, key);
            r[..|r| - 1] == window[|window| - (|r| - 1)..]
  {
  }

  /** The last `n` elements of `s`, or all of `s` when it is shorter. */
  function LastN<T>(s: seq<T>, n: nat): (r: seq<T>)
    ensures |r| == if |s| <= n then |s| else n
  {
    if |s| <= n then s else s[|s| - n..]
  }

  /** Pushing onto the window of the keys so far gives the window of the keys with one more. */
  lemma PushKeepsLastKeys(keys: seq<string>, key: string)
    ensures Push(LastN(keys, WindowSize), key) == LastN(keys + [key], WindowSize)
  {
    var w := LastN(keys, WindowSize);
    var r := Push(w, key);
    var t := LastN(keys + [key], WindowSize);
    assert |r| == |t|;
    PushKeepsOlderKeys(w, key);
    forall i | 0 <= i < |r| ensures r[i] == t[i] {
      if i < |r| - 1 {
        assert r[i] == r[..|r| - 1][i] == w[|w| - (|r| - 1) + i];
      }
    }
  }

  /** What one key event does to the window, and whether the code fired. */
  datatype KeyOutcome = KeyOutcome(window: seq<string>, fired: bool)

  function KeyStep(code: seq<string>, active: bool, window: seq<string>, key: string): (r: KeyOutcome)
    requires |window| <= WindowSize
    ensures |r.window| <= WindowSize
    ensures !active ==> r == KeyOutcome(window, false)
    ensures r.fired <==> active && Push(window, key) == code
    ensures r.fired ==> r.window == []
    ensures active && !r.fired ==> r.window == Push(window, key)
  {
    if !active then KeyOutcome(window, false)
    else
      var s := Push(window, key);
      if Matches(s, code) then KeyOutcome([], true) else KeyOutcome(s, false)
  }

  lemma DifferentLast<T>(s: seq<T>, t: seq<T>)
    requires |s| > 0 && |t| > 0 && s[|s| - 1] != t[|t| - 1]
    ensures s != t
  {
  }

  /**
   * Part-way through typing a code whose last key is unique, the window (the
   * last keys since the clear) cannot match it yet: its newest key differs.
   */
  lemma PartialCodeNeverMatches(code: seq<string>, history: seq<string>, j: nat)
    requires |code| == WindowSize && LastKeyUnique(code) && j < WindowSize - 1
    ensures LastN(history + code[..j + 1], WindowSize) != code
  {
    var w := LastN(history + code[..j + 1], WindowSize);
    assert w[|w| - 1] == (history + code[..j + 1])[|history| + j] == code[j];
    DifferentLast(w, code);
  }

  /** Once the whole code has been typed, the window is exactly the code, whatever came before. */
  lemma WholeCodeMatches(code: seq<string>, history: seq<string>)
    requires |code| == WindowSize
    ensures LastN(history + code, WindowSize) == code
  {
    var s := history + code;
    assert s[|s| - WindowSize..] == code;
  }

  /**
   * The Konami code fires on its tenth key and never earlier: with the window
   * being the last ten keys since the clear, no proper prefix of the code
   * completes a match, and the full code always does.
   */
  lemma KonamiFiresOnlyOnLastKey(history: seq<string>, j: nat)
    requires j < WindowSize
    ensures LastN(history + KonamiCode[..j + 1], WindowSize) == KonamiCode <==> j == WindowSize - 1
  {
    KonamiCodeFacts();
    if j < WindowSize - 1 {
      PartialCodeNeverMatches(KonamiCode, history, j);
    } else {
      assert KonamiCode[..j + 1] == KonamiCode;
      WholeCodeMatches(KonamiCode, history);
    }
  }

  /** The detector itself: the window, the armed flag, and (ghost) the keys handled since the last clear. */
  class Detector {
    var currentSequence: seq<string>
    var gameActive: bool
    ghost var sinceClear: seq<string>

    /** The window is always the last ten keys handled since it was last cleared. */
    ghost predicate Valid()
      reads this
    {
      currentSequence == LastN(sinceClear, WindowSize)
    }

    /** Cleared and disarmed: the state `setGameActive(false)` leaves behind. */
    ghost predicate Disarmed()
      reads this
    {
      !gameActive && currentSequence == [] && sinceClear == []
    }

    constructor ()
      ensures Valid() && Disarmed()
    {
      currentSequence := [];
      gameActive := false;
      sinceClear := [];
    }

    /** The keydown listener; `fired` is the `onSecretCode` event (the easter-egg effects are not modelled). */
    method HandleKey(key: string) returns (fired: bool)
      requires Valid()
      modifies this
      ensures Valid()
      ensures KeyOutcome(currentSequence, fired) == KeyStep(KonamiCode, old(gameActive), old(currentSequence), key)
      ensures gameActive == old(gameActive)
      ensures !old(gameActive) ==> unchanged(this)
      ensures fired <==> old(gameActive) && LastN(old(sinceClear) + [key], WindowSize) == KonamiCode
      ensures old(gameActive) && !fired ==> sinceClear == old(sinceClear) + [key]
      ensures fired ==> sinceClear == []
    {
      fired := false;
      if !gameActive {
        return;
      }
      PushKeepsLastKeys(sinceClear, key);
      currentSequence := currentSequence + [key];
      if |currentSequence| > WindowSize {
        currentSequence := currentSequence[1..];
      }
      sinceClear := sinceClear + [key];
      if CheckSequence() {
        fired := true;
        currentSequence := [];
        sinceClear := [];
      }
    }

    /** `checkSequence`: the window equals the Konami code. */
    function CheckSequence(): (matched: bool)
      reads this
      ensures matched <==> currentSequence == KonamiCode
    {
      Matches(currentSequence, KonamiCode)
    }

    method SetGameActive(active: bool)
      requires Valid()
      modifies this
      ensures Valid()
      ensures gameActive == active
      ensures !active ==> Disarmed()
      ensures active ==> currentSequence == old(currentSequence) && sinceClear == old(sinceClear)
    {
      gameActive := active;
      if !active {
        currentSequence := [];
        sinceClear := [];
      }
    }

    method IsGameActive() returns (active: bool)
      ensures active == gameActive
    {
      active := gameActive;
    }
  }
}
