/** The onboarding carousel (src/components/Onboarding.tsx): a slide index that
    the "next" button advances until the last slide, where the button instead
    calls `onComplete`; "skip" calls `onComplete` from any slide. */
module Onboarding {

  datatype Slide = Slide(title: string, text: string)

  const Slides: seq<Slide> := [
    Slide("Plante saúde em poucos dias",
      "Com o EcoMicro, cultivar alimentos supernutritivos em casa ficou fácil, rápido e acessível."),
    Slide("Passo a passo descomplicado",
      "Aprenda como cultivar mais de 50 espécies com guias visuais, dicas práticas e vídeos curtos."),
    Slide("Transforme sua alimentação em 7 dias",
      "Colha microverdes frescos direto da sua casa. Sem agrotóxicos, sem complicação.")
  ]

  /** The index of the last slide. */
  const Last: nat := |Slides| - 1

  const NextLabel: string := "Próximo →"
  const StartLabel: string := "Começar agora"

  /** `ButtonText`: "next" on every slide but the last, "start now" on the last. */
  function ButtonLabel(slide: nat): (r: string)
    ensures r == StartLabel <==> slide >= Last
    ensures r == NextLabel <==> slide < Last
  {
    if slide < Last then NextLabel else StartLabel
  }

  /** The slide index and how many times `onComplete` has been called. */
  datatype State = State(slide: nat, completions: nat)

  /** One press of the next button (`nextSlide`). */
  function Next(st: State): State {
    if st.slide < Last then st.(slide := st.slide + 1)
    else st.(completions := st.completions + 1)
  }

  /** The state after `k` presses of the next button. */
  function Press(st: State, k: nat): State
    decreases k
  {
    if k == 0 then st else Press(Next(st), k - 1)
  }

  function Min(a: int, b: int): int { if a <= b then a else b }
  function Max(a: int, b: int): int { if a <= b then b else a }

  /** One press advances the index, without completing, while the index is
      before the last slide; on the last slide it completes and stays. The
      index never leaves the slides. */
  lemma NextSpec(st: State)
    requires st.slide < |Slides|
    ensures Next(st).slide < |Slides|
    ensures st.slide < Last ==> Next(st).slide == st.slide + 1 && Next(st).completions == st.completions
    ensures st.slide == Last ==> Next(st).slide == Last && Next(st).completions == st.completions + 1
  {
  }

  /** From an index on the slides, `k` presses move to the last slide at most,
      and every press beyond it calls `onComplete` once. */
  lemma {:induction false} PressSpec(st: State, k: nat)
    requires st.slide <= Last
    decreases k
    ensures Press(st, k).slide == Min(st.slide + k, Last)
    ensures Press(st, k).completions == st.completions + Max(0, st.slide + k - Last)
  {
    if k > 0 {
      PressSpec(Next(st), k - 1);
    }
  }

  /** From the first slide, `|Slides| - 1` presses reach the last slide without
      completing, and the next press completes. */
  lemma FromStartToCompletion()
    ensures Press(State(0, 0), Last) == State(Last, 0)
    ensures Press(State(0, 0), Last + 1) == State(Last, 1)
  {
    PressSpec(State(0, 0), Last);
    PressSpec(State(0, 0), Last + 1);
  }

  /** The carousel's state: the slide index and the count of `onComplete` calls
      (the callback itself belongs to the caller). */
  class OnboardingScreen {
    var slide: nat
    var completions: nat

    ghost predicate Valid()
      reads this
    {
      slide < |Slides|
    }

    constructor ()
      ensures Valid()
      ensures slide == 0 && completions == 0
    {
      slide := 0;
      completions := 0;
    }

    /** The slide on screen, `slides[slide]`. */
    function Current(): Slide
      reads this
      requires Valid()
    {
      Slides[slide]
    }

    /** The next button's label. */
    function ButtonText(): string
      reads this
    {
      ButtonLabel(slide)
    }

    /** `nextSlide`. */
    method NextSlide()
      requires Valid()
      modifies this
      ensures Valid()
      ensures State(slide, completions) == Next(State(old(slide), old(completions)))
    {
      if slide < |Slides| - 1 {
        slide := slide + 1;
      } else {
        completions := completions + 1;
      }
    }

    /** The skip button: `onComplete` from any slide; the index does not move. */
    method Skip()
      requires Valid()
      modifies this`completions
      ensures Valid()
      ensures slide == old(slide) && completions == old(completions) + 1
    {
      completions := completions + 1;
    }
  }
}
