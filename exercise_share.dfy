/**
 * `handleShare` of app/exercise/index.tsx: the text shared from the plan.
 * The platform share sheet itself is outside the model; a message of
 * `Some(m)` is what would be handed to it, `None` means it is never opened.
 */
module ExerciseShare {
  import opened Wrappers
  import opened PlanData
  import opened JsText

  /** `item.repeticoes?.join(', ')`: `None` when the exercise has no repetitions. */
  function RepetitionsText(e: Exercise): (t: Option<string>)
    ensures t.Some? <==> e.repeticoes.Some?
  {
    match e.repeticoes
    case Some(reps) => Some(Join(reps, ", "))
    case None => None
  }

  /** The labels that open the name, description and repetitions lines of a block. */
  const NameLabel: string := "- Nome: "
  const DescriptionLabel: string := "- Descrição: "
  const RepetitionsLabel: string := "- Repetições: "

  lemma LabelsHaveNoNewline()
    ensures '\n' !in NameLabel && '\n' !in DescriptionLabel && '\n' !in RepetitionsLabel
  {
  }

  /**
   * The block one exercise contributes to the message: the template literal
   * of `exercicios.map`, each line's newline written before its label.
   */
  function Block(e: Exercise): (b: string)
    ensures |b| > 0 && b[0] == '\n'
  {
    "\n" + NameLabel + e.nome + "\n" + DescriptionLabel + e.descricao
      + "\n" + RepetitionsLabel + Interpolate(RepetitionsText(e))
  }

  /** `exercicios.map(...)`: one block per exercise, in list order. */
  function Blocks(exs: seq<Exercise>): (bs: seq<string>)
    ensures |bs| == |exs|
    ensures forall i :: 0 <= i < |exs| ==> bs[i] == Block(exs[i])
  {
    if |exs| == 0 then [] else [Block(exs[0])] + Blocks(exs[1..])
  }

  /** The exercise section: the blocks joined with a single newline. */
  function Section(exs: seq<Exercise>): (s: string)
    ensures s == "" <==> |exs| == 0
    ensures |exs| > 0 ==> s[0] == '\n'
  {
    Join(Blocks(exs), "\n")
  }

  /**
   * The section holds one block per exercise with one newline between
   * neighbours: empty for no exercises, N - 1 separators for N, and a further
   * exercise adds a newline and its block at the end.
   */
  lemma {:induction false} SectionShape(exs: seq<Exercise>, e: Exercise)
    ensures |exs| == 0 ==> Section(exs) == ""
    ensures |exs| > 0 ==> |Section(exs)| == TotalLength(Blocks(exs)) + |exs| - 1
    ensures |exs| > 0 ==> Section(exs + [e]) == Section(exs) + "\n" + Block(e)
  {
    if |exs| > 0 {
      JoinLength(Blocks(exs), "\n");
      BlocksSnoc(exs, e);
      JoinSnoc(Blocks(exs), Block(e), "\n");
    }
  }

  lemma BlocksSnoc(exs: seq<Exercise>, e: Exercise)
    ensures Blocks(exs + [e]) == Blocks(exs) + [Block(e)]
  {
  }

  /** The first line of the message, from `data?.nome` and `data?.objetivo`. */
  function Header(nome: Option<string>, objetivo: Option<string>): (h: string)
    ensures "Exercícios: " <= h
    ensures '\n' !in Interpolate(nome) && '\n' !in Interpolate(objetivo) ==> '\n' !in h
  {
    "Exercícios: " + Interpolate(nome) + " - Objetivo: " + Interpolate(objetivo)
  }

  /**
   * The message `handleShare` shares, or `None` when it returns early.
   * Only an empty object stops it: `undefined` data passes the guard and
   * every optional-chained value renders as `undefined`.
   */
  function ShareMessage(data: ScreenData): (m: Option<string>)
    ensures m.None? <==> data.EmptyObject?
  {
    if IsEmptyObject(data) then None
    else
      var nome := if data.Defined? then Some(data.plan.nome) else None;
      var objetivo := if data.Defined? then Some(data.plan.objetivo) else None;
      var exercises := if data.Defined? then Some(Section(data.plan.exercicios)) else None;
      Some(Header(nome, objetivo) + "\n\n" + Interpolate(exercises))
  }

  /** With `undefined` data the guard does not stop the share: every value renders as `undefined`. */
  lemma ShareUndefined()
    ensures ShareMessage(Undefined) == Some("Exercícios: undefined - Objetivo: undefined\n\nundefined")
  {
    var h := Header(None, None);
    assert h == "Exercícios: undefined - Objetivo: undefined";
    assert ShareMessage(Undefined) == Some(h + "\n\n" + "undefined");
    assert h + "\n\n" + "undefined" == "Exercícios: undefined - Objetivo: undefined\n\nundefined";
  }

  // ---------------------------------------------------------------------
  // The message read line by line

  /** The lines of one exercise block: an empty line, then name, description, repetitions. */
  function BlockLines(e: Exercise): (ls: seq<string>)
  {
    ["", NameLabel + e.nome, DescriptionLabel + e.descricao,
     RepetitionsLabel + Interpolate(RepetitionsText(e))]
  }

  /** The lines of all blocks, one block after the other. */
  function SectionLines(exs: seq<Exercise>): (ls: seq<string>)
    ensures |ls| == 4 * |exs|
  {
    if |exs| == 0 then [] else BlockLines(exs[0]) + SectionLines(exs[1..])
  }

  /** The lines of the whole message for a plan. */
  function MessageLines(p: Plan): (ls: seq<string>)
  {
    [Header(Some(p.nome), Some(p.objetivo)), ""]
      + (if |p.exercicios| == 0 then [""] else SectionLines(p.exercicios))
  }

  /** Four lines joined with newlines. */
  lemma JoinFourLines(a: string, b: string, c: string, d: string)
    ensures Join([a, b, c, d], "\n") == a + "\n" + b + "\n" + c + "\n" + d
  {
    assert Join([c, d], "\n") == c + "\n" + d by { assert [c, d][1..] == [d]; }
    assert Join([b, c, d], "\n") == b + "\n" + (c + "\n" + d) by { assert [b, c, d][1..] == [c, d]; }
    assert Join([a, b, c, d], "\n") == a + "\n" + (b + "\n" + (c + "\n" + d)) by {
      assert [a, b, c, d][1..] == [b, c, d];
    }
  }

  /** A block is its four lines joined with newlines. */
  lemma BlockIsLines(e: Exercise)
    ensures Block(e) == Join(BlockLines(e), "\n")
  {
    JoinFourLines("", NameLabel + e.nome, DescriptionLabel + e.descricao,
                  RepetitionsLabel + Interpolate(RepetitionsText(e)));
  }

  /** The section is the lines of its blocks joined with newlines. */
  lemma {:induction false} SectionIsLines(exs: seq<Exercise>)
    ensures Section(exs) == Join(SectionLines(exs), "\n")
  {
    if |exs| == 1 {
      BlockIsLines(exs[0]);
      assert SectionLines(exs) == BlockLines(exs[0]);
      assert Blocks(exs) == [Block(exs[0])];
    } else if |exs| > 1 {
      SectionIsLines(exs[1..]);
      BlockIsLines(exs[0]);
      var bs := Blocks(exs);
      assert bs == [bs[0]] + bs[1..];
      assert bs[1..] == Blocks(exs[1..]);
      JoinConcat(BlockLines(exs[0]), SectionLines(exs[1..]), "\n");
    }
  }

  /** For every plan the shared message is exactly its lines joined with newlines. */
  lemma ShareMessageIsLines(p: Plan)
    ensures ShareMessage(Defined(p)) == Some(Join(MessageLines(p), "\n"))
  {
    var h := Header(Some(p.nome), Some(p.objetivo));
    var exs := p.exercicios;
    SectionIsLines(exs);
    assert ShareMessage(Defined(p)) == Some(h + "\n\n" + Section(exs));
    if |exs| == 0 {
      assert Join([""], "\n") == "";
      assert Join(["", ""], "\n") == "\n";
      assert Join([h, "", ""], "\n") == h + "\n" + "\n" by { assert [h, "", ""][1..] == ["", ""]; }
      assert MessageLines(p) == [h, "", ""];
      assert Section(exs) == "" by { assert Blocks(exs) == []; }
      assert h + "\n\n" + "" == h + "\n" + "\n";
    } else {
      var ls := SectionLines(exs);
      JoinConcat([h, ""], ls, "\n");
      assert Join([h, ""], "\n") == h + "\n" by { assert [h, ""][1..] == [""]; }
      assert MessageLines(p) == [h, ""] + ls;
      assert h + "\n\n" == h + "\n" + "\n";
    }
  }

  /** The `k`-th line of the `i`-th block sits at line `4 * i + k` of the section. */
  lemma {:induction false} SectionLinesAt(exs: seq<Exercise>, i: nat, k: nat)
    requires i < |exs| && k < 4
    ensures SectionLines(exs)[4 * i + k] == BlockLines(exs[i])[k]
  {
    if i > 0 {
      SectionLinesAt(exs[1..], i - 1, k);
    }
  }

  /** No user-supplied text of an exercise that reaches the message contains `c`. */
  predicate ExerciseTextAvoids(e: Exercise, c: char)
  {
    c !in e.nome && c !in e.descricao
    && (e.repeticoes.Some? ==> NoneContains(e.repeticoes.value, c))
  }

  /** No user-supplied text of the plan that reaches the message contains `c`. */
  predicate PlanTextAvoids(p: Plan, c: char)
  {
    c !in p.nome && c !in p.objetivo
    && forall i :: 0 <= i < |p.exercicios| ==> ExerciseTextAvoids(p.exercicios[i], c)
  }

  lemma {:induction false} SectionLinesAvoidNewline(exs: seq<Exercise>)
    requires forall i :: 0 <= i < |exs| ==> ExerciseTextAvoids(exs[i], '\n')
    ensures NoneContains(SectionLines(exs), '\n')
  {
    if |exs| > 0 {
      SectionLinesAvoidNewline(exs[1..]);
      LabelsHaveNoNewline();
      var e := exs[0];
      assert ExerciseTextAvoids(e, '\n');
      if e.repeticoes.Some? {
        JoinAvoids(e.repeticoes.value, ", ", '\n');
      }
      assert NoneContains(BlockLines(e), '\n');
    }
  }

  lemma MessageLinesAvoidNewline(p: Plan)
    requires PlanTextAvoids(p, '\n')
    ensures NoneContains(MessageLines(p), '\n')
  {
    SectionLinesAvoidNewline(p.exercicios);
  }

  /**
   * Reading the message of a plan back line by line gives the header, an
   * empty line, and then four lines per exercise in list order (a single
   * empty line when there are none), provided the plan's texts hold no newline.
   */
  lemma ShareMessageReadsBack(p: Plan)
    requires PlanTextAvoids(p, '\n')
    ensures ShareMessage(Defined(p)).Some?
    ensures Split(ShareMessage(Defined(p)).value, '\n') == MessageLines(p)
  {
    ShareMessageIsLines(p);
    MessageLinesAvoidNewline(p);
    SplitJoin(MessageLines(p), '\n');
  }

  /**
   * The lines of the message: the header, an empty line, then for the
   * `i`-th exercise its four lines starting at line `2 + 4 * i`; a single
   * empty line stands for a plan with no exercises.
   */
  lemma MessageLinesLayout(p: Plan)
    ensures MessageLines(p)[0] == "Exercícios: " + p.nome + " - Objetivo: " + p.objetivo
    ensures MessageLines(p)[1] == ""
    ensures |p.exercicios| == 0 ==> MessageLines(p) == [MessageLines(p)[0], "", ""]
    ensures |MessageLines(p)| == 2 + (if |p.exercicios| == 0 then 1 else 4 * |p.exercicios|)
    ensures forall i, k :: 0 <= i < |p.exercicios| && 0 <= k < 4 ==>
              MessageLines(p)[2 + 4 * i + k] == BlockLines(p.exercicios[i])[k]
  {
    var exs := p.exercicios;
    forall i, k | 0 <= i < |exs| && 0 <= k < 4
      ensures MessageLines(p)[2 + 4 * i + k] == BlockLines(exs[i])[k]
    {
      SectionLinesAt(exs, i, k);
    }
  }

  /**
   * An example of the share text: one exercise with three repetition
   * counts. The expected message is written as the template pieces with the
   * plan's values in place.
   */
  lemma ShareExample()
    ensures ShareMessage(Defined(Plan("Plano A", "", 0.0, 0.0, 0.0, "Ganhar massa", [], [],
              [Exercise("Flexão", "Descer e subir", Some(["12", "12", "10"]), None)])))
            == Some("Exercícios: " + "Plano A" + " - Objetivo: " + "Ganhar massa" + "\n\n"
                    + ("\n" + "- Nome: " + "Flexão" + "\n" + "- Descrição: " + "Descer e subir"
                       + "\n" + "- Repetições: " + ("12" + ", " + ("12" + ", " + "10"))))
  {
    var e := Exercise("Flexão", "Descer e subir", Some(["12", "12", "10"]), None);
    var p := Plan("Plano A", "", 0.0, 0.0, 0.0, "Ganhar massa", [], [], [e]);
    assert Join(["12", "12", "10"], ", ") == "12" + ", " + ("12" + ", " + "10") by {
      assert ["12", "12", "10"][1..] == ["12", "10"];
      assert ["12", "10"][1..] == ["10"];
    }
    assert Section([e]) == Block(e) by { assert Blocks([e]) == [Block(e)]; }
  }
}
