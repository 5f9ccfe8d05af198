/** The top-level stage machine (App.tsx): introduction, quiz, result, and
    a reset back to the introduction. */
module App {
  import opened Wrappers
  import opened Types
  import Constants
  import Quiz

  datatype Stage = Intro | QuizStage | Result

  /** Which stage view renders. */
  datatype Screen = IntroScreen | QuizScreen | DashboardScreen(archetype: Archetype) | NoScreen

  /** The three guarded blocks of the render: the result view appears only
      in stage RESULT with a result id set, and then receives that id's
      archetype. */
  function ScreenFor(stage: Stage, resultId: Option<ArchetypeId>): (s: Screen)
    ensures s == IntroScreen <==> stage == Intro
    ensures s == QuizScreen <==> stage == QuizStage
    ensures s.DashboardScreen? <==> stage == Result && resultId.Some?
    ensures s.DashboardScreen? ==>
      resultId.value in Constants.Archetypes &&
      s.archetype == Constants.Archetypes[resultId.value] && s.archetype.id == resultId.value
  {
    Constants.ArchetypesKeyedById();
    match stage
    case Intro => IntroScreen
    case QuizStage => QuizScreen
    case Result =>
      if resultId.Some? then DashboardScreen(Constants.Archetypes[resultId.value]) else NoScreen
  }

  class App {
    var stage: Stage
    var resultId: Option<ArchetypeId>

    /** In stage RESULT a result id is always set, so the result view never
        renders as nothing. */
    ghost predicate Valid()
      reads this
    {
      stage == Result ==> resultId.Some?
    }

    /** The view the render shows; in a valid state it always shows one. */
    function CurrentScreen(): (s: Screen)
      reads this
      ensures Valid() ==> s != NoScreen
    {
      ScreenFor(stage, resultId)
    }

    /** The app starts on the introduction with no result. */
    constructor ()
      ensures Valid()
      ensures stage == Intro && resultId == None
    {
      stage := Intro;
      resultId := None;
    }

    /** `startQuiz`: to the quiz; the result id is not touched. */
    method StartQuiz()
      modifies this
      ensures Valid()
      ensures stage == QuizStage && resultId == old(resultId)
    {
      stage := QuizStage;
    }

    /** `handleQuizComplete`: record the winner and show the result. */
    method HandleQuizComplete(id: ArchetypeId)
      modifies this
      ensures Valid()
      ensures stage == Result && resultId == Some(id)
      ensures CurrentScreen() == DashboardScreen(Constants.Archetypes[id])
    {
      resultId := Some(id);
      stage := Result;
    }

    /** `reset`: back to the introduction with no result, from any state. */
    method Reset()
      modifies this
      ensures Valid()
      ensures stage == Intro && resultId == None
    {
      stage := Intro;
      resultId := None;
    }
  }

  /** A visit from the introduction through the quiz: once enough answers
      have been given, the result view shows the archetype that wins the
      first QuestionCount answers; before that the quiz is still on screen. */
  method Visit(answers: seq<ArchetypeId>) returns (screen: Screen)
    ensures |answers| >= Quiz.QuestionCount ==>
      screen.DashboardScreen? &&
      screen.archetype.id == Quiz.Winner(Quiz.Tally(answers[..Quiz.QuestionCount]))
    ensures |answers| < Quiz.QuestionCount ==> screen == QuizScreen
  {
    var app := new App();
    app.StartQuiz();
    var result, completions := Quiz.Play(answers);
    if result.Some? {
      app.HandleQuizComplete(result.value);
    }
    screen := app.CurrentScreen();
  }
}
