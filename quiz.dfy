/** The first-contact quiz: five questions answered A, B or C; the letter
    with the most answers picks the recommended plan, ties going to the
    earliest letter. */
module Quiz {
  import opened Common

  /** The ids of `quizQuestions`, in order q1..q5. */
  const QuestionIds: set<string> := {"q1", "q2", "q3", "q4", "q5"}
  const QuestionCount: nat := 5

  /** The option values every question offers. */
  const Letters: set<string> := {"A", "B", "C"}

  datatype Plan = Plan(title: string, message: string)

  /** The `results` table. */
  const Results: map<string, Plan> := map[
    "A" := Plan("Plano Semanal (Starter)",
      "Com base nas suas respostas, sugerimos começar com o nosso Plano Semanal. Ele oferece treinos simples para iniciantes, cardápios práticos e o acompanhamento necessário para criar novos hábitos."),
    "B" := Plan("Plano Mensal (Padrão)",
      "Sua jornada já está em andamento! O Plano Mensal é ideal para você. Tenha acesso completo à nossa biblioteca de treinos e receitas, e receba novos conteúdos toda semana para manter o progresso constante."),
    "C" := Plan("Plano Premium",
      "Você busca o melhor! O Plano Premium foi feito para quem quer ir além. Desbloqueie todo o nosso conteúdo, entre na comunidade exclusiva e tenha acesso a bônus que te levarão ao próximo nível.")
  ]

  // ---------------------------------------------------------------------
  // Answers
  // ---------------------------------------------------------------------

  /** `{ ...prev, [questionId]: value }` */
  function AnswerChange(answers: map<string, string>, questionId: string, value: string): (r: map<string, string>)
    ensures r.Keys == answers.Keys + {questionId}
    ensures r[questionId] == value
    ensures forall q :: q in answers && q != questionId ==> r[q] == answers[q]
  {
    answers[questionId := value]
  }

  /** Answering a question again replaces its entry and adds no key. */
  lemma ReanswerReplaces(answers: map<string, string>, questionId: string, v1: string, v2: string)
    ensures AnswerChange(AnswerChange(answers, questionId, v1), questionId, v2)
         == AnswerChange(answers, questionId, v2)
    ensures questionId in answers ==> |AnswerChange(answers, questionId, v2)| == |answers|
  {
    if questionId in answers {
      assert AnswerChange(answers, questionId, v2).Keys == answers.Keys;
    }
  }

  /** `Object.keys(answers).length === quizQuestions.length` */
  predicate AllQuestionsAnswered(answers: map<string, string>) {
    |answers| == QuestionCount
  }

  /** With answers only for the quiz's own questions, the button is enabled
      exactly when every question has an answer. */
  lemma AllAnsweredMeansEveryQuestion(answers: map<string, string>)
    requires answers.Keys <= QuestionIds
    ensures AllQuestionsAnswered(answers) <==> answers.Keys == QuestionIds
  {
    assert |QuestionIds| == 5;
    if answers.Keys != QuestionIds {
      var missing :| missing in QuestionIds && missing !in answers.Keys;
      SubsetCardinality(answers.Keys, QuestionIds - {missing});
    }
  }

  lemma SubsetCardinality<T>(a: set<T>, b: set<T>)
    requires a <= b
    ensures |a| <= |b|
  {
    assert b == a + (b - a);
  }

  // ---------------------------------------------------------------------
  // Tally and majority
  // ---------------------------------------------------------------------

  /** The number of answers equal to `letter` among the given questions. */
  function CountIn(answers: map<string, string>, questions: set<string>, letter: string): nat {
    |set q | q in questions && q in answers && answers[q] == letter|
  }

  /** How many questions were answered `letter`. */
  function Tally(answers: map<string, string>, letter: string): nat {
    CountIn(answers, answers.Keys, letter)
  }

  lemma CountInAdd(answers: map<string, string>, questions: set<string>, q: string, letter: string)
    requires q !in questions
    ensures CountIn(answers, questions + {q}, letter)
         == CountIn(answers, questions, letter) + (if q in answers && answers[q] == letter then 1 else 0)
  {
    var before := set x | x in questions && x in answers && answers[x] == letter;
    var after := set x | x in questions + {q} && x in answers && answers[x] == letter;
    if q in answers && answers[q] == letter {
      assert after == before + {q};
    } else {
      assert after == before;
    }
  }

  /** The first letter, in the order A, B, C, whose count is the largest:
      the reference definition of the majority. */
  function FirstMaximal(a: nat, b: nat, c: nat): (r: string)
    ensures r in Letters
  {
    var top := if a >= b && a >= c then a else if b >= c then b else c;
    if a == top then "A" else if b == top then "B" else "C"
  }

  function CountFor(letter: string, a: nat, b: nat, c: nat): nat {
    if letter == "A" then a else if letter == "B" then b else c
  }

  /** The chosen letter's count is at least every other letter's count. */
  lemma MajorityIsMaximal(a: nat, b: nat, c: nat)
    ensures CountFor(FirstMaximal(a, b, c), a, b, c) >= a
    ensures CountFor(FirstMaximal(a, b, c), a, b, c) >= b
    ensures CountFor(FirstMaximal(a, b, c), a, b, c) >= c
  {
  }

  /** Ties go to the earliest letter: A wins every tie it is in, and B
      beats C when both tie above A. */
  lemma MajorityTieBreak(a: nat, b: nat, c: nat)
    ensures a >= b && a >= c ==> FirstMaximal(a, b, c) == "A"
    ensures b > a && b >= c ==> FirstMaximal(a, b, c) == "B"
    ensures FirstMaximal(a, b, c) == "C" <==> c > a && c > b
  {
  }

  /** `counts` holds, for each of A, B and C, how many of the questions in
      `done` were answered with it. */
  predicate Counted(answers: map<string, string>, done: set<string>, counts: map<string, nat>) {
    counts.Keys == Letters
    && counts["A"] == CountIn(answers, done, "A")
    && counts["B"] == CountIn(answers, done, "B")
    && counts["C"] == CountIn(answers, done, "C")
  }

  /** Counting one more pending question bumps its answer's letter, if it
      is one. */
  lemma CountedStep(answers: map<string, string>, pending: set<string>, q: string, counts: map<string, nat>)
    requires Counted(answers, answers.Keys - pending, counts) && q in pending && pending <= answers.Keys
    ensures answers[q] in counts ==>
              Counted(answers, answers.Keys - (pending - {q}), counts[answers[q] := counts[answers[q]] + 1])
    ensures answers[q] !in counts ==> Counted(answers, answers.Keys - (pending - {q}), counts)
  {
    var done := answers.Keys - pending;
    assert answers.Keys - (pending - {q}) == done + {q};
    CountInAdd(answers, done, q, "A");
    CountInAdd(answers, done, q, "B");
    CountInAdd(answers, done, q, "C");
  }

  /** `calculateResult`'s tally: counts start at 0 for A, B and C and each
      answer bumps its letter, in whatever order the values come (which
      does not matter). An answer outside A, B, C would give a count that is
      never read, so it is skipped. */
  method TallyAnswers(answers: map<string, string>) returns (counts: map<string, nat>)
    ensures Counted(answers, answers.Keys, counts)
  {
    counts := map["A" := 0, "B" := 0, "C" := 0];
    var pending := answers.Keys;
    assert answers.Keys - pending == {};
    while pending != {}
      invariant pending <= answers.Keys
      invariant Counted(answers, answers.Keys - pending, counts)
      decreases |pending|
    {
      var q :| q in pending;
      var answer := answers[q];
      CountedStep(answers, pending, q, counts);
      if answer in counts {
        counts := counts[answer := counts[answer] + 1];
      }
      pending := pending - {q};
    }
    assert answers.Keys - pending == answers.Keys;
  }

  /** `calculateResult`'s choice: A first, then B and C in turn replace the
      majority only on a strictly larger count. */
  method MajorityLetter(answers: map<string, string>) returns (majority: string)
    ensures majority in Letters
    ensures majority == FirstMaximal(Tally(answers, "A"), Tally(answers, "B"), Tally(answers, "C"))
  {
    var counts := TallyAnswers(answers);
    majority := "A";
    if counts["B"] > counts[majority] {
      majority := "B";
    }
    if counts["C"] > counts[majority] {
      majority := "C";
    }
  }

  /** Over any set of questions whose answers are all letters, the three
      counts add up to the number of questions. */
  lemma {:induction false} CountsSum(answers: map<string, string>, questions: set<string>)
    requires questions <= answers.Keys
    requires forall q :: q in answers ==> answers[q] in Letters
    ensures CountIn(answers, questions, "A") + CountIn(answers, questions, "B") + CountIn(answers, questions, "C")
         == |questions|
    decreases questions
  {
    if questions != {} {
      var q :| q in questions;
      var rest := questions - {q};
      assert questions == rest + {q};
      CountsSum(answers, rest);
      CountInAdd(answers, rest, q, "A");
      CountInAdd(answers, rest, q, "B");
      CountInAdd(answers, rest, q, "C");
      assert answers[q] in Letters;
    }
  }

  /** When every answer is a letter, the three counts add up to the number
      of answers. */
  lemma TallySum(answers: map<string, string>)
    requires forall q :: q in answers ==> answers[q] in Letters
    ensures Tally(answers, "A") + Tally(answers, "B") + Tally(answers, "C") == |answers|
  {
    CountsSum(answers, answers.Keys);
  }

  // ---------------------------------------------------------------------
  // The page's state
  // ---------------------------------------------------------------------

  class QuizPage {
    var answers: map<string, string>
    var result: Option<Plan>

    constructor()
      ensures answers == map[] && result == None
    {
      answers, result := map[], None;
    }

    /** `handleAnswerChange`, called by a question's radio group. */
    method HandleAnswerChange(questionId: string, value: string)
      modifies this
      ensures answers == AnswerChange(old(answers), questionId, value)
      ensures result == old(result)
    {
      answers := AnswerChange(answers, questionId, value);
    }

    /** `calculateResult`, behind the button that is enabled only when all
        questions are answered: the dialog shows the majority's plan. */
    method CalculateResult()
      requires AllQuestionsAnswered(answers)
      modifies this
      ensures answers == old(answers)
      ensures result == Some(Results[FirstMaximal(Tally(answers, "A"), Tally(answers, "B"), Tally(answers, "C"))])
    {
      var majority := MajorityLetter(answers);
      result := Some(Results[majority]);
    }

    /** Closing the dialog (`onOpenChange`) resets the result. */
    method CloseDialog()
      modifies this
      ensures answers == old(answers) && result == None
    {
      result := None;
    }
  }
}
