/**
 * The root component (`App`): the typewriter line under the title, the
 * cycling ASCII banner, the dark/light switch and the easter-egg flags. Each
 * timer callback is one method call; the delay the typewriter asks for next
 * is its result.
 */
module App {
  import Theme

  /** The lines the typewriter types and deletes, in turn. */
  const TypingTexts: seq<string> := [
    "Full Stack Developer",
    "Coffee-Powered Lifeform",
    "Debugger of the Universe",
    "Will Code for Snacks \U{1F36A}",
    "Professional Keyboard Smasher"
  ]

  /** The three banners the ASCII animation shows in turn. */
  const AsciiArts: seq<string> := [
    "\n     _____ _____ _____ _____\n    |     |     |  _  |   __|\n    |   --|  |  |     |   __|\n    |_____|_____|_____|_____|\n    ",
    "\n     _____  _____ _____  _____\n    |  |  ||  _  |     ||  |  |\n    |     ||     |   --||    -|\n    |__|__||__|__|_____||__|__|\n    ",
    "\n     _____ _____ _____  _____\n    |  _  |   __|     ||     |\n    |     |__   |   --||  |  |\n    |__|__|_____|_____||_____|\n    "
  ]

  /** Delays, in milliseconds, the typewriter waits before its next step. */
  const PauseAtEnd: nat := 2000
  const DeleteDelay: nat := 50
  const TypeDelay: nat := 150

  /** `substring(0, n)`: the first `n` characters, `n` clamped to the string. */
  function Prefix(s: string, n: int): (r: string)
    ensures |r| == if n < 0 then 0 else if n > |s| then |s| else n
    ensures r == s[..|r|]
  {
    if n < 0 then "" else if n > |s| then s else s[..n]
  }

  /** The typewriter closure's variables and the text it shows. */
  datatype Typing = Typing(textIndex: nat, charIndex: int, deleting: bool, typed: string)

  /** Every line has something to type. */
  predicate Lines(texts: seq<string>)
  {
    |texts| > 0 && forall k :: 0 <= k < |texts| ==> |texts[k]| > 0
  }

  /**
   * The state a typewriter can be in: the shown text is the first
   * `charIndex` characters of the current line; while typing the line is not
   * yet complete, while deleting something is still shown.
   */
  predicate TypingValid(texts: seq<string>, t: Typing)
  {
    t.textIndex < |texts|
    && 0 <= t.charIndex <= |texts[t.textIndex]|
    && t.typed == texts[t.textIndex][..t.charIndex]
    && (t.deleting ==> t.charIndex > 0)
    && (!t.deleting ==> t.charIndex < |texts[t.textIndex]|)
  }

  /** The typewriter state at the start, and after each line has been deleted. */
  function LineStart(i: nat): Typing
  {
    Typing(i, 0, false, "")
  }

  /** One step and the delay it asks for before the next. */
  datatype Step = Step(next: Typing, delay: nat)

  /** The body of the `type` closure. */
  function TypeStep(texts: seq<string>, t: Typing): (r: Step)
    requires Lines(texts) && TypingValid(texts, t)
    ensures TypingValid(texts, r.next)
    ensures !t.deleting ==> r.next.charIndex == t.charIndex + 1
    ensures t.deleting ==> r.next.charIndex == t.charIndex - 1
    ensures r.delay == PauseAtEnd <==> !t.deleting && r.next.deleting
    ensures r.delay == DeleteDelay <==> t.deleting && r.next.deleting
    ensures r.delay == TypeDelay <==> !r.next.deleting
    ensures r.next.textIndex != t.textIndex ==> t.deleting && t.charIndex == 1
    ensures t.deleting && t.charIndex == 1 ==> r.next == LineStart((t.textIndex + 1) % |texts|)
  {
    var text := texts[t.textIndex];
    if !t.deleting then
      var typed := Prefix(text, t.charIndex + 1);
      var charIndex := t.charIndex + 1;
      if charIndex == |text| then Step(Typing(t.textIndex, charIndex, true, typed), PauseAtEnd)
      else Step(Typing(t.textIndex, charIndex, false, typed), TypeDelay)
    else
      var typed := Prefix(text, t.charIndex - 1);
      var charIndex := t.charIndex - 1;
      if charIndex == 0 then Step(LineStart((t.textIndex + 1) % |texts|), TypeDelay)
      else Step(Typing(t.textIndex, charIndex, true, typed), DeleteDelay)
  }

  /** The typewriter after `k` steps. */
  function Run(texts: seq<string>, t: Typing, k: nat): (r: Typing)
    requires Lines(texts) && TypingValid(texts, t)
    ensures TypingValid(texts, r)
  {
    if k == 0 then t else TypeStep(texts, Run(texts, t, k - 1)).next
  }

  /** Typing a line of length `L` takes `L` steps, one character at a time. */
  lemma {:induction false} TypesUp(texts: seq<string>, i: nat, k: nat)
    requires Lines(texts) && i < |texts| && k <= |texts[i]|
    ensures Run(texts, LineStart(i), k)
         == if k < |texts[i]| then Typing(i, k, false, texts[i][..k]) else Typing(i, k, true, texts[i])
  {
    if k > 0 {
      TypesUp(texts, i, k - 1);
    }
  }

  /** Deleting it takes `L` more steps, after which the next line starts. */
  lemma {:induction false} DeletesDown(texts: seq<string>, i: nat, k: nat)
    requires Lines(texts) && i < |texts| && k <= |texts[i]|
    ensures var len := |texts[i]|;
            Run(texts, LineStart(i), len + k)
            == if k < len then Typing(i, len - k, true, texts[i][..len - k]) else LineStart((i + 1) % |texts|)
  {
    var len := |texts[i]|;
    if k == 0 {
      TypesUp(texts, i, len);
    } else {
      DeletesDown(texts, i, k - 1);
    }
  }

  /** A whole line, typed and deleted, takes twice its length in steps and moves on to the next line. */
  lemma LineRound(texts: seq<string>, i: nat)
    requires Lines(texts) && i < |texts|
    ensures Run(texts, LineStart(i), 2 * |texts[i]|) == LineStart((i + 1) % |texts|)
  {
    DeletesDown(texts, i, |texts[i]|);
  }

  /** The site's lines are all non-empty. */
  lemma SiteLines()
    ensures Lines(TypingTexts) && |TypingTexts| == 5 && |AsciiArts| == 3
  {
  }

  /** `initializeApp`'s hour rule: dark before 6 and from 18 o'clock. */
  function DarkAtHour(hour: int): (dark: bool)
    ensures dark <==> !(6 <= hour < 18)
  {
    hour < 6 || hour >= 18
  }

  /** The root component and the theme service's hour rule agree on every hour. */
  lemma HourRulesAgree(hour: int)
    ensures DarkAtHour(hour) <==> Theme.HourTheme(hour) == "dark"
  {
  }

  /** The root component's state; `themeService` is the shared theme service. */
  class AppComponent {
    const themeService: Theme.ThemeService
    const typingTexts: seq<string>
    const asciiArts: seq<string>
    var isDarkTheme: bool
    var isMatrixMode: bool
    var showEasterEgg: bool
    var typedText: string
    var currentAsciiArt: string
    var textIndex: nat
    var charIndex: int
    var isDeleting: bool
    var asciiIndex: nat

    function Typewriter(): Typing
      reads this
    {
      Typing(textIndex, charIndex, isDeleting, typedText)
    }

    ghost predicate Valid()
      reads this
    {
      Lines(typingTexts) && TypingValid(typingTexts, Typewriter()) && asciiIndex < |asciiArts|
    }

    /** The component as created, with its typewriter and banner counters at their start. */
    constructor (themeService: Theme.ThemeService)
      ensures Valid() && this.themeService == themeService
      ensures typingTexts == TypingTexts && asciiArts == AsciiArts
      ensures isDarkTheme && !isMatrixMode && !showEasterEgg
      ensures Typewriter() == LineStart(0) && asciiIndex == 0 && currentAsciiArt == ""
    {
      SiteLines();
      this.themeService := themeService;
      typingTexts := TypingTexts;
      asciiArts := AsciiArts;
      isDarkTheme := true;
      isMatrixMode := false;
      showEasterEgg := false;
      typedText := "";
      currentAsciiArt := "";
      textIndex := 0;
      charIndex := 0;
      isDeleting := false;
      asciiIndex := 0;
    }

    /** The theme part of `initializeApp`, at the given local hour. */
    method InitializeTheme(hour: int)
      modifies this, themeService
      ensures isDarkTheme == DarkAtHour(hour)
      ensures themeService.current == (if isDarkTheme then "dark" else "light")
      ensures themeService.style == Theme.Apply(old(themeService.style), themeService.current)
      ensures themeService.stored.Some? && themeService.stored.value == themeService.current
      ensures Typewriter() == old(Typewriter()) && asciiIndex == old(asciiIndex)
      ensures currentAsciiArt == old(currentAsciiArt)
      ensures isMatrixMode == old(isMatrixMode) && showEasterEgg == old(showEasterEgg)
    {
      isDarkTheme := hour < 6 || hour >= 18;
      themeService.SetTheme(if isDarkTheme then "dark" else "light");
    }

    /** One run of the `type` closure; `delay` is the timeout it sets for the next run. */
    method Type() returns (delay: nat)
      requires Valid()
      modifies this
      ensures Valid()
      ensures Step(Typewriter(), delay) == TypeStep(typingTexts, old(Typewriter()))
      ensures asciiIndex == old(asciiIndex) && currentAsciiArt == old(currentAsciiArt)
      ensures isDarkTheme == old(isDarkTheme) && isMatrixMode == old(isMatrixMode)
      ensures showEasterEgg == old(showEasterEgg)
    {
      var currentText := typingTexts[textIndex];
      if !isDeleting {
        typedText := Prefix(currentText, charIndex + 1);
        charIndex := charIndex + 1;
        if charIndex == |currentText| {
          isDeleting := true;
          return PauseAtEnd;
        }
      } else {
        typedText := Prefix(currentText, charIndex - 1);
        charIndex := charIndex - 1;
        if charIndex == 0 {
          isDeleting := false;
          textIndex := (textIndex + 1) % |typingTexts|;
        }
      }
      delay := if isDeleting then DeleteDelay else TypeDelay;
    }

    /** One tick of the ASCII interval: show the current banner, then move to the next of the three. */
    method AsciiTick()
      requires Valid()
      modifies this
      ensures Valid()
      ensures currentAsciiArt == asciiArts[old(asciiIndex)]
      ensures asciiIndex == (old(asciiIndex) + 1) % |asciiArts|
      ensures Typewriter() == old(Typewriter()) && isDarkTheme == old(isDarkTheme)
      ensures isMatrixMode == old(isMatrixMode) && showEasterEgg == old(showEasterEgg)
    {
      currentAsciiArt := asciiArts[asciiIndex];
      asciiIndex := (asciiIndex + 1) % |asciiArts|;
    }

    /** `toggleTheme`: flip between dark and light, and tell the theme service. */
    method ToggleTheme()
      modifies this, themeService
      ensures isDarkTheme == !old(isDarkTheme)
      ensures themeService.current == "dark" <==> isDarkTheme
      ensures themeService.current == (if isDarkTheme then "dark" else "light")
      ensures themeService.style == Theme.Apply(old(themeService.style), themeService.current)
      ensures themeService.stored.Some? && themeService.stored.value == themeService.current
      ensures Typewriter() == old(Typewriter()) && asciiIndex == old(asciiIndex)
      ensures currentAsciiArt == old(currentAsciiArt)
      ensures isMatrixMode == old(isMatrixMode) && showEasterEgg == old(showEasterEgg)
    {
      isDarkTheme := !isDarkTheme;
      themeService.SetTheme(if isDarkTheme then "dark" else "light");
    }

    /** The secret-code subscriber: show the easter egg and switch the matrix mode on. */
    method OnSecretCode()
      modifies this
      ensures showEasterEgg && isMatrixMode
      ensures Typewriter() == old(Typewriter()) && asciiIndex == old(asciiIndex)
      ensures currentAsciiArt == old(currentAsciiArt)
      ensures isDarkTheme == old(isDarkTheme)
    {
      showEasterEgg := true;
      isMatrixMode := true;
    }

    /** The subscriber's five-second timeout: the matrix mode goes off again. */
    method EndMatrixMode()
      modifies this
      ensures !isMatrixMode && showEasterEgg == old(showEasterEgg)
      ensures Typewriter() == old(Typewriter()) && asciiIndex == old(asciiIndex)
      ensures currentAsciiArt == old(currentAsciiArt)
      ensures isDarkTheme == old(isDarkTheme)
    {
      isMatrixMode := false;
    }
  }
}
