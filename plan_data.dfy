/**
 * The shapes of types/data.ts: an exercise plan as the backend returns it,
 * and the three kinds of value the screen's `data` can hold at run time.
 */
module PlanData {
  import opened Wrappers

  /** A JavaScript number. The screen only copies these, it never computes with them. */
  type JsNumber = real

  /** `ExerciseProps`: `repeticoes` and `tempo` are optional and independent. */
  datatype Exercise = Exercise(
    nome: string,
    descricao: string,
    repeticoes: Option<seq<string>>,
    tempo: Option<seq<string>>)

  /** `RefeicoesProps`: part of the plan, unused by the exercise screen. */
  datatype Meal = Meal(horario: string, nome: string, alimentos: seq<string>)

  /** `Data`: the plan. */
  datatype Plan = Plan(
    nome: string,
    sexo: string,
    idade: JsNumber,
    altura: JsNumber,
    peso: JsNumber,
    objetivo: string,
    refeicoes: seq<Meal>,
    suplementos: seq<string>,
    exercicios: seq<Exercise>)

  /**
   * What the screen's `data` can be: `undefined`, an empty object `{}`, or a plan.
   * The response body is untyped JSON at run time, which is how `{}` can arrive.
   */
  datatype ScreenData = Undefined | EmptyObject | Defined(plan: Plan)

  /** The own enumerable keys of a plan object, in declaration order. */
  const PlanKeys: seq<string> :=
    ["nome", "sexo", "idade", "altura", "peso", "objetivo", "refeicoes", "suplementos", "exercicios"]

  /** JavaScript truthiness of `data`: only `undefined` is falsy; every object is truthy. */
  predicate Truthy(d: ScreenData)
    ensures Truthy(d) <==> d.EmptyObject? || d.Defined?
  {
    !d.Undefined?
  }

  /** `Object.keys(data).length`, defined for the truthy values. */
  function KeyCount(d: ScreenData): (n: nat)
    requires Truthy(d)
    ensures n == 0 <==> d.EmptyObject?
  {
    match d
    case EmptyObject => 0
    case Defined(_) => |PlanKeys|
  }

  /** `data && Object.keys(data).length === 0`: the early return of the share handler. */
  predicate IsEmptyObject(d: ScreenData)
    ensures IsEmptyObject(d) <==> d.EmptyObject?
  {
    Truthy(d) && KeyCount(d) == 0
  }

  /** `data && Object.keys(data).length > 0`: the condition that shows the exercise list. */
  predicate HasKeys(d: ScreenData)
    ensures HasKeys(d) <==> d.Defined?
  {
    Truthy(d) && KeyCount(d) > 0
  }
}
