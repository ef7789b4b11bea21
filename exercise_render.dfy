/**
 * What the exercise screen shows, chosen from the query's `isFetching`,
 * `error` and `data` (the early returns and conditional JSX of
 * app/exercise/index.tsx). Styling and the element tree are not modelled:
 * a view records the texts, the cards and where each button leads.
 */
module ExerciseRender {
  import opened Wrappers
  import opened PlanData
  import opened JsText
  import ExerciseShare

  /** The error the query reports; the screen only looks at whether it is set. */
  datatype QueryError = QueryError(message: string)

  /** A declarative link (pushes the route) or `router.replace` (replaces the current one). */
  datatype Navigation = LinkTo(href: string) | ReplaceWith(href: string)

  /**
   * One exercise card: its React key, the bold name, the description line,
   * the repetitions line when the exercise has repetitions, and the minutes
   * of the time line (as the raw list) when it has a time.
   */
  datatype Card = Card(
    key: string,
    name: string,
    description: string,
    repetitions: Option<string>,
    minutes: Option<seq<string>>)

  /** The part shown only for a non-empty plan: label, cards and the "new exercises" button. */
  datatype ExerciseList = ExerciseList(heading: string, cards: seq<Card>, regenerate: string, onRegenerate: Navigation)

  /** The three mutually exclusive screens. */
  datatype View =
    | Loading(status: seq<string>)
    | Failed(message: string, retry: string, onRetry: Navigation)
    | Content(title: string, shareButton: string, list: Option<ExerciseList>)

  const LoadingStatus: seq<string> := ["Estamos gerando seus exercícios!", "Consultando IA..."]
  const FailureMessage: string := "Falha ao gerar seus exercícios!"
  const RetryText: string := "Tente novamente"
  const Title: string := "Meus Exercícios"
  const ShareText: string := "Compartilhar"
  const ListLabel: string := "Exercícios:"
  const RegenerateText: string := "Gerar novos exercícios"
  const Home: string := "/"

  /** The card of one exercise. */
  function CardFor(e: Exercise): (c: Card)
    ensures c.key == e.nome && c.name == e.nome
    ensures c.description == "Descrição: " + e.descricao
    ensures c.repetitions.Some? <==> e.repeticoes.Some?
    ensures e.repeticoes.Some? ==> c.repetitions.value == "Repetições: " + Join(e.repeticoes.value, ", ")
    ensures c.minutes == e.tempo
  {
    var repetitions :=
      match ExerciseShare.RepetitionsText(e)
      case Some(reps) => Some("Repetições: " + reps)
      case None => None;
    Card(e.nome, e.nome, "Descrição: " + e.descricao, repetitions, e.tempo)
  }

  /** `data.exercicios.map(...)`: one card per exercise, in list order. */
  function Cards(exs: seq<Exercise>): (cs: seq<Card>)
    ensures |cs| == |exs|
    ensures forall i :: 0 <= i < |exs| ==> cs[i] == CardFor(exs[i])
  {
    if |exs| == 0 then [] else [CardFor(exs[0])] + Cards(exs[1..])
  }

  /**
   * The screen: loading while fetching, else the failure screen when an
   * error is set, else the content screen, whose header and share button are
   * always there and whose exercise list needs a plan with at least one key.
   */
  function Render(isFetching: bool, error: Option<QueryError>, data: ScreenData): (v: View)
    ensures v.Loading? <==> isFetching
    ensures v.Failed? <==> !isFetching && error.Some?
    ensures v.Content? <==> !isFetching && error.None?
    ensures v.Content? ==> v.title == Title && v.shareButton == ShareText
    ensures v.Content? ==> (v.list.Some? <==> data.Defined?)
  {
    if isFetching then
      Loading(LoadingStatus)
    else if error.Some? then
      Failed(FailureMessage, RetryText, LinkTo(Home))
    else
      var list :=
        if HasKeys(data)
        then Some(ExerciseList(ListLabel, Cards(data.plan.exercicios), RegenerateText, ReplaceWith(Home)))
        else None;
      Content(Title, ShareText, list)
  }

  /** Fetching wins over everything; a set error wins over the data; neither screen shows data. */
  lemma RenderPrecedence(error: Option<QueryError>, other: Option<QueryError>, data: ScreenData, data': ScreenData)
    ensures Render(true, error, data) == Render(true, other, data') == Loading(LoadingStatus)
    ensures error.Some? && other.Some? ==>
              Render(false, error, data) == Render(false, other, data') == Failed(FailureMessage, RetryText, LinkTo(Home))
  {
  }

  /**
   * For a plan, the content screen lists exactly one card per exercise in
   * order; a card has a repetitions line exactly when the exercise has
   * repetitions and a time line exactly when it has a time; the list ends
   * with the button that replaces the screen by the start screen.
   */
  lemma PlanCards(p: Plan)
    ensures Render(false, None, Defined(p)).list.Some?
    ensures var l := Render(false, None, Defined(p)).list.value;
      && l.heading == ListLabel
      && l.regenerate == RegenerateText && l.onRegenerate == ReplaceWith(Home)
      && |l.cards| == |p.exercicios|
      && forall i :: 0 <= i < |p.exercicios| ==>
           && l.cards[i].name == p.exercicios[i].nome
           && (l.cards[i].repetitions.Some? <==> p.exercicios[i].repeticoes.Some?)
           && (l.cards[i].minutes.Some? <==> p.exercicios[i].tempo.Some?)
  {
  }

  /**
   * A card's repetitions line is the shared message's repetitions line for
   * the same exercise without the leading "- ": the screen and the shared
   * text join the repetitions the same way.
   */
  lemma SharedLabel(reps: string)
    ensures "- " + ("Repetições: " + reps) == ExerciseShare.RepetitionsLabel + reps
  {
    assert "- " + "Repetições: " == ExerciseShare.RepetitionsLabel;
    assert "- " + ("Repetições: " + reps) == ("- " + "Repetições: ") + reps;
  }

  lemma CardAgreesWithShare(p: Plan, i: nat)
    requires i < |p.exercicios| && p.exercicios[i].repeticoes.Some?
    ensures var card := Render(false, None, Defined(p)).list.value.cards[i];
      && card.repetitions.Some?
      && ExerciseShare.MessageLines(p)[2 + 4 * i + 3] == "- " + card.repetitions.value
  {
    var exs := p.exercicios;
    var e := exs[i];
    var reps := Join(e.repeticoes.value, ", ");
    ExerciseShare.SectionLinesAt(exs, i, 3);
    assert ExerciseShare.MessageLines(p)[2 + 4 * i + 3] == ExerciseShare.SectionLines(exs)[4 * i + 3];
    assert ExerciseShare.BlockLines(e)[3] == ExerciseShare.RepetitionsLabel + reps;
    assert CardFor(e).repetitions.value == "Repetições: " + reps;
    SharedLabel(reps);
  }
}
