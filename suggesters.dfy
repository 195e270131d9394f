/** The workout and meal suggester cards: the form's length rule and the
    state updates of `onSubmit`. The generative service is an oracle: its
    answer (or thrown error) is a parameter. The plan text is rendered by
    `Markdown.RenderMarkdown`. */
module Suggesters {
  import opened Common

  const EquipmentMinLength: nat := 2
  const EquipmentMessage := "Por favor, liste pelo menos um equipamento."
  const IngredientsMinLength: nat := 3
  const IngredientsMessage := "Por favor, liste pelo menos um ingrediente."

  /** `z.string().min(min, message)` on the single form field. */
  function MinLengthIssues(field: string, value: string, min: nat, message: string): (r: seq<Issue>)
    ensures r == [] <==> |value| >= min
    ensures r != [] ==> r == [Issue(field, message)]
  {
    if |value| < min then [Issue(field, message)] else []
  }

  /** The workout form accepts equipment text of two characters or more. */
  lemma EquipmentRule(equipment: string)
    ensures MinLengthIssues("equipment", equipment, EquipmentMinLength, EquipmentMessage) == []
        <==> |equipment| >= 2
  {
  }

  /** The meal form accepts ingredients text of three characters or more. */
  lemma IngredientsRule(ingredients: string)
    ensures MinLengthIssues("ingredients", ingredients, IngredientsMinLength, IngredientsMessage) == []
        <==> |ingredients| >= 3
  {
  }

  /** One suggester card's state. `planLog` and `loadingLog` record every
      `setPlan` and `setIsLoading` call in order. */
  class Suggester {
    const failureDescription: string
    var plan: Option<string>
    var isLoading: bool
    var planLog: seq<Option<string>>
    var loadingLog: seq<bool>
    var toasts: seq<Toast>

    constructor Workout()
      ensures failureDescription == "Falha ao gerar o plano de treino. Por favor, tente novamente."
      ensures plan == None && !isLoading && planLog == [] && loadingLog == [] && toasts == []
    {
      failureDescription := "Falha ao gerar o plano de treino. Por favor, tente novamente.";
      plan, isLoading := None, false;
      planLog, loadingLog, toasts := [], [], [];
    }

    constructor Meal()
      ensures failureDescription == "Falha ao gerar o plano de refeição. Por favor, tente novamente."
      ensures plan == None && !isLoading && planLog == [] && loadingLog == [] && toasts == []
    {
      failureDescription := "Falha ao gerar o plano de refeição. Por favor, tente novamente.";
      plan, isLoading := None, false;
      planLog, loadingLog, toasts := [], [], [];
    }

    /** `onSubmit`: loading on, plan cleared, then the service's plan field
        on success (None when the field is absent from its answer), or an
        error toast with the plan left cleared; loading off in every case. */
    method OnSubmit(service: Result<Option<string>, ErrorValue>)
      modifies this
      ensures loadingLog == old(loadingLog) + [true, false] && !isLoading
      ensures service.Success? ==> plan == service.value && planLog == old(planLog) + [None, service.value]
      ensures service.Success? ==> toasts == old(toasts)
      ensures service.Failure? ==> plan == None && planLog == old(planLog) + [None]
      ensures service.Failure? ==> toasts == old(toasts) + [Toast("Erro", failureDescription, true)]
    {
      isLoading := true;
      loadingLog := loadingLog + [true];
      plan := None;
      planLog := planLog + [None];
      match service {
        case Success(answer) =>
          plan := answer;
          planLog := planLog + [answer];
        case Failure(_) =>
          toasts := toasts + [Toast("Erro", failureDescription, true)];
      }
      isLoading := false;
      loadingLog := loadingLog + [false];
    }
  }
}
