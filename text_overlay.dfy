/** The caption overlay's typewriter: on activation it clears both lines,
    waits 2 s, then appends the title one character per timeout, then the
    body, and stops. Timeouts are events; only one typewriter timeout is
    pending at a time, and cleanup cancels it and the initial delay. */
module TextOverlay {

  /** Which step the pending typewriter timeout will run, if one is pending. */
  datatype Pending = Nothing | TypeTitle | TypeBody

  /** `title` and `body` are the strings the latest activation types;
      `initialDelay` is the 2 s timeout that starts typing. */
  datatype Typewriter = Typewriter(
    title: string,
    body: string,
    displayedTitle: string,
    displayedBody: string,
    opacity: real,
    titleIndex: nat,
    bodyIndex: nat,
    initialDelay: bool,
    pending: Pending)

  /** The displayed lines are the prefixes of the source strings up to the
      indices, and the body starts only after the whole title. */
  predicate Valid(s: Typewriter) {
    && s.titleIndex <= |s.title| && s.displayedTitle == s.title[..s.titleIndex]
    && s.bodyIndex <= |s.body| && s.displayedBody == s.body[..s.bodyIndex]
    && (s.bodyIndex > 0 || s.pending == TypeBody ==> s.titleIndex == |s.title|)
    && (s.initialDelay ==> s.pending == Nothing && s.titleIndex == 0 && s.bodyIndex == 0)
  }

  function Mounted(title: string, body: string): (s: Typewriter)
    ensures Valid(s) && s.displayedTitle == "" && s.displayedBody == "" && s.opacity == 0.0
  {
    Typewriter(title, body, "", "", 0.0, 0, 0, false, Nothing)
  }

  /** The effect cleanup: cancel the initial delay and the typewriter timeout. */
  function Cleanup(s: Typewriter): (r: Typewriter)
    ensures !r.initialDelay && r.pending == Nothing
    ensures r.displayedTitle == s.displayedTitle && r.displayedBody == s.displayedBody
    ensures r.titleIndex == s.titleIndex && r.bodyIndex == s.bodyIndex && r.opacity == s.opacity
    ensures Valid(s) ==> Valid(r)
  {
    s.(initialDelay := false, pending := Nothing)
  }

  /** The effect re-running after cleanup. Active: full opacity, both lines and
      indices back to the start, initial delay armed. Inactive: opacity 0,
      text and indices left as they were. */
  function EffectRun(s: Typewriter, isActive: bool, title: string, body: string): (r: Typewriter)
    ensures Valid(s) ==> Valid(r)
    ensures isActive ==>
      r.opacity == 1.0 && r.displayedTitle == "" && r.displayedBody == "" &&
      r.titleIndex == 0 && r.bodyIndex == 0 && r.initialDelay && r.pending == Nothing &&
      r.title == title && r.body == body
    ensures !isActive ==>
      r.opacity == 0.0 && r.displayedTitle == s.displayedTitle && r.displayedBody == s.displayedBody &&
      r.titleIndex == s.titleIndex && r.bodyIndex == s.bodyIndex && !r.initialDelay && r.pending == Nothing
  {
    if isActive then Typewriter(title, body, "", "", 1.0, 0, 0, true, Nothing)
    else Cleanup(s).(opacity := 0.0)
  }

  /** The 2 s delay ends: `startTypewriter` schedules the first title step. */
  function DelayFired(s: Typewriter): (r: Typewriter)
    ensures Valid(s) ==> Valid(r)
    ensures s.initialDelay ==> !r.initialDelay && r.pending == TypeTitle
    ensures !s.initialDelay ==> r == s
  {
    if s.initialDelay then s.(initialDelay := false, pending := TypeTitle) else s
  }

  /** The pending typewriter timeout runs `typeTitle` or `typeBody`. */
  function TypewriterStep(s: Typewriter): (r: Typewriter)
    ensures Valid(s) ==> Valid(r)
    ensures r.title == s.title && r.body == s.body && r.opacity == s.opacity && r.initialDelay == s.initialDelay
    // the title index and the body index only grow, by at most one character
    ensures s.titleIndex <= r.titleIndex <= s.titleIndex + 1 && s.bodyIndex <= r.bodyIndex <= s.bodyIndex + 1
    // body typing is scheduled only once the title is complete
    ensures r.pending == TypeBody && s.pending != TypeBody ==> s.titleIndex >= |s.title|
    // with the body complete, typing stops and schedules nothing
    ensures s.pending == TypeBody && s.bodyIndex >= |s.body| ==> r == s.(pending := Nothing)
    ensures s.pending == Nothing ==> r == s
  {
    match s.pending
    case Nothing => s
    case TypeTitle =>
      if s.titleIndex < |s.title| then
        s.(displayedTitle := s.displayedTitle + [s.title[s.titleIndex]], titleIndex := s.titleIndex + 1)
      else
        s.(pending := TypeBody)
    case TypeBody =>
      if s.bodyIndex < |s.body| then
        s.(displayedBody := s.displayedBody + [s.body[s.bodyIndex]], bodyIndex := s.bodyIndex + 1)
      else
        s.(pending := Nothing)
  }

  function FiresTimes(s: Typewriter, n: nat): Typewriter
    decreases n
  {
    if n == 0 then s else FiresTimes(TypewriterStep(s), n - 1)
  }

  lemma {:induction false} FiresTimesSplit(s: Typewriter, m: nat, n: nat)
    ensures FiresTimes(s, m + n) == FiresTimes(FiresTimes(s, m), n)
    decreases m
  {
    if m > 0 {
      FiresTimesSplit(TypewriterStep(s), m - 1, n);
    }
  }

  lemma Chain(a: Typewriter, b: Typewriter, c: Typewriter, m: nat, n: nat, total: nat)
    requires FiresTimes(a, m) == b && FiresTimes(b, n) == c && total == m + n
    ensures FiresTimes(a, total) == c
  {
    FiresTimesSplit(a, m, n);
  }

  /** `k` title steps append the next `k` characters of the title. */
  lemma {:induction false} TypesTitle(s: Typewriter, k: nat)
    requires Valid(s) && s.pending == TypeTitle && s.titleIndex + k <= |s.title|
    ensures FiresTimes(s, k) ==
      s.(displayedTitle := s.title[..s.titleIndex + k], titleIndex := s.titleIndex + k)
    decreases k
  {
    if k > 0 {
      var s1 := TypewriterStep(s);
      assert s.title[..s.titleIndex] + [s.title[s.titleIndex]] == s.title[..s.titleIndex + 1];
      TypesTitle(s1, k - 1);
    }
  }

  /** `k` body steps append the next `k` characters of the body. */
  lemma {:induction false} TypesBody(s: Typewriter, k: nat)
    requires Valid(s) && s.pending == TypeBody && s.bodyIndex + k <= |s.body|
    ensures FiresTimes(s, k) ==
      s.(displayedBody := s.body[..s.bodyIndex + k], bodyIndex := s.bodyIndex + k)
    decreases k
  {
    if k > 0 {
      var s1 := TypewriterStep(s);
      assert s.body[..s.bodyIndex] + [s.body[s.bodyIndex]] == s.body[..s.bodyIndex + 1];
      TypesBody(s1, k - 1);
    }
  }

  /** From the first title step, `|title| + 1` steps type the whole title and
      hand over to the body. */
  lemma TitleTyped(a: Typewriter)
    requires Valid(a) && a.pending == TypeTitle && a.titleIndex == 0
    ensures FiresTimes(a, |a.title| + 1) ==
      a.(displayedTitle := a.title, titleIndex := |a.title|, pending := TypeBody)
  {
    var a1 := FiresTimes(a, |a.title|);
    TypesTitle(a, |a.title|);
    assert a.title[..|a.title|] == a.title;
    Chain(a, a1, TypewriterStep(a1), |a.title|, 1, |a.title| + 1);
  }

  /** From the first body step, `|body| + 1` steps type the whole body and stop. */
  lemma BodyTyped(b: Typewriter)
    requires Valid(b) && b.pending == TypeBody && b.bodyIndex == 0
    ensures FiresTimes(b, |b.body| + 1) ==
      b.(displayedBody := b.body, bodyIndex := |b.body|, pending := Nothing)
  {
    var b1 := FiresTimes(b, |b.body|);
    TypesBody(b, |b.body|);
    assert b.body[..|b.body|] == b.body;
    Chain(b, b1, TypewriterStep(b1), |b.body|, 1, |b.body| + 1);
  }

  /** From the first title step, `|title| + |body| + 2` steps type both lines
      in full and stop. */
  lemma TypesFromStart(a: Typewriter, total: nat)
    requires a == Typewriter(a.title, a.body, "", "", a.opacity, 0, 0, false, TypeTitle)
    requires total == |a.title| + |a.body| + 2
    ensures FiresTimes(a, total) ==
      a.(displayedTitle := a.title, displayedBody := a.body,
         titleIndex := |a.title|, bodyIndex := |a.body|, pending := Nothing)
  {
    TitleTyped(a);
    var b := a.(displayedTitle := a.title, titleIndex := |a.title|, pending := TypeBody);
    BodyTyped(b);
    var c := b.(displayedBody := b.body, bodyIndex := |b.body|, pending := Nothing);
    Chain(a, b, c, |a.title| + 1, |a.body| + 1, total);
  }

  /** After activation and the initial delay, `|title| + |body| + 2` timeouts
      show the whole title and the whole body, and nothing more is pending. */
  lemma TypesInFull(s: Typewriter, title: string, body: string)
    ensures var r := FiresTimes(DelayFired(EffectRun(s, true, title, body)), |title| + |body| + 2);
      r.displayedTitle == title && r.displayedBody == body && r.pending == Nothing && r.opacity == 1.0
  {
    var a := DelayFired(EffectRun(s, true, title, body));
    TypesFromStart(a, |title| + |body| + 2);
  }

  /** The component's state and refs. */
  class TextOverlay {
    var title: string
    var body: string
    var displayedTitle: string
    var displayedBody: string
    var opacity: real
    var titleIndex: nat
    var bodyIndex: nat
    var initialDelayTimeout: bool
    var typewriterTimeout: Pending

    function State(): Typewriter
      reads this
    {
      Typewriter(title, body, displayedTitle, displayedBody, opacity,
                 titleIndex, bodyIndex, initialDelayTimeout, typewriterTimeout)
    }

    constructor (title: string, body: string)
      ensures State() == Mounted(title, body) && Valid(State())
    {
      this.title, this.body := title, body;
      displayedTitle, displayedBody := "", "";
      opacity := 0.0;
      titleIndex, bodyIndex := 0, 0;
      initialDelayTimeout := false;
      typewriterTimeout := Nothing;
    }

    /** Cleanup of the previous run, then the effect with the new props. */
    method Effect(isActive: bool, newTitle: string, newBody: string)
      requires Valid(State())
      modifies this
      ensures Valid(State())
      ensures State() == EffectRun(old(State()), isActive, newTitle, newBody)
    {
      Unmount();
      if isActive {
        opacity := 1.0;
        displayedTitle := "";
        displayedBody := "";
        titleIndex := 0;
        bodyIndex := 0;
        title, body := newTitle, newBody;
        initialDelayTimeout := true;
      } else {
        opacity := 0.0;
      }
    }

    /** The effect cleanup on its own, as when the component unmounts. */
    method Unmount()
      requires Valid(State())
      modifies this
      ensures Valid(State())
      ensures State() == Cleanup(old(State()))
    {
      initialDelayTimeout := false;
      typewriterTimeout := Nothing;
    }

    method InitialDelayFires()
      requires Valid(State())
      modifies this
      ensures Valid(State())
      ensures State() == DelayFired(old(State()))
    {
      if initialDelayTimeout {
        initialDelayTimeout := false;
        typewriterTimeout := TypeTitle;
      }
    }

    /** `typeTitle` or `typeBody`, whichever the pending timeout runs. */
    method TypewriterFires()
      requires Valid(State())
      modifies this
      ensures Valid(State())
      ensures State() == TypewriterStep(old(State()))
    {
      match typewriterTimeout
      case Nothing =>
      case TypeTitle =>
        if titleIndex < |title| {
          displayedTitle := displayedTitle + [title[titleIndex]];
          titleIndex := titleIndex + 1;
        } else {
          typewriterTimeout := TypeBody;
        }
      case TypeBody =>
        if bodyIndex < |body| {
          displayedBody := displayedBody + [body[bodyIndex]];
          bodyIndex := bodyIndex + 1;
        } else {
          typewriterTimeout := Nothing;
        }
    }
  }
}
