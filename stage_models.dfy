/** The five language-model handles of a run, all served by the resolved
    Kamiwaza endpoint, and the configuration object they are registered in. */
module StageModels {
  import opened Common

  /** The pipeline roles that each get their own model handle. */
  datatype Stage = ConvSimulator | QuestionAsker | OutlineGen | ArticleGen | ArticlePolish

  /** `KamiwazaModel(model=..., max_tokens=..., api_base=...)`. */
  datatype KamiwazaModel = KamiwazaModel(model: string, maxTokens: nat, apiBase: string)

  /** The output budget of each stage's handle. */
  function MaxTokens(s: Stage): nat
  {
    match s
    case ConvSimulator => 500
    case QuestionAsker => 500
    case OutlineGen => 400
    case ArticleGen => 700
    case ArticlePolish => 4000
  }

  /** The handle the driver builds for a stage. */
  function StageModel(apiBase: string, s: Stage): KamiwazaModel
  {
    KamiwazaModel("model", MaxTokens(s), apiBase)
  }

  /** All five handles talk to the same endpoint under the same model name
      and differ only in their budgets; polishing, which rewrites a whole
      draft, has the largest budget, and the two research roles share theirs. */
  lemma StageModelsShareEndpoint(apiBase: string, s: Stage, t: Stage)
    ensures StageModel(apiBase, s).apiBase == StageModel(apiBase, t).apiBase == apiBase
    ensures StageModel(apiBase, s).model == StageModel(apiBase, t).model == "model"
    ensures StageModel(apiBase, s).maxTokens <= StageModel(apiBase, ArticlePolish).maxTokens
    ensures StageModel(apiBase, s) == StageModel(apiBase, t) <==>
      s == t || {s, t} == {ConvSimulator, QuestionAsker}
  {
  }

  /** `STORMWikiLMConfigs`: one slot per stage, empty until its setter is called. */
  class LMConfigs {
    var convSimulatorLm: Option<KamiwazaModel>
    var questionAskerLm: Option<KamiwazaModel>
    var outlineGenLm: Option<KamiwazaModel>
    var articleGenLm: Option<KamiwazaModel>
    var articlePolishLm: Option<KamiwazaModel>

    /** The slot of a stage. */
    function Get(s: Stage): Option<KamiwazaModel>
      reads this
    {
      match s
      case ConvSimulator => convSimulatorLm
      case QuestionAsker => questionAskerLm
      case OutlineGen => outlineGenLm
      case ArticleGen => articleGenLm
      case ArticlePolish => articlePolishLm
    }

    /** Every slot holds the handle the driver builds for that stage at `apiBase`. */
    predicate ConfiguredFor(apiBase: string)
      reads this
    {
      forall s: Stage :: Get(s) == Some(StageModel(apiBase, s))
    }

    constructor ()
      ensures forall s: Stage :: Get(s) == None
    {
      convSimulatorLm, questionAskerLm, outlineGenLm, articleGenLm, articlePolishLm := None, None, None, None, None;
    }

    method SetConvSimulatorLm(m: KamiwazaModel)
      modifies this
      ensures forall s: Stage :: Get(s) == if s == ConvSimulator then Some(m) else old(Get(s))
    {
      convSimulatorLm := Some(m);
    }

    method SetQuestionAskerLm(m: KamiwazaModel)
      modifies this
      ensures forall s: Stage :: Get(s) == if s == QuestionAsker then Some(m) else old(Get(s))
    {
      questionAskerLm := Some(m);
    }

    method SetOutlineGenLm(m: KamiwazaModel)
      modifies this
      ensures forall s: Stage :: Get(s) == if s == OutlineGen then Some(m) else old(Get(s))
    {
      outlineGenLm := Some(m);
    }

    method SetArticleGenLm(m: KamiwazaModel)
      modifies this
      ensures forall s: Stage :: Get(s) == if s == ArticleGen then Some(m) else old(Get(s))
    {
      articleGenLm := Some(m);
    }

    method SetArticlePolishLm(m: KamiwazaModel)
      modifies this
      ensures forall s: Stage :: Get(s) == if s == ArticlePolish then Some(m) else old(Get(s))
    {
      articlePolishLm := Some(m);
    }
  }

  /** Lines 73-83: build the five handles at `apiBase` and register each with its setter. */
  method ConfigureStageModels(lmConfigs: LMConfigs, apiBase: string)
    modifies lmConfigs
    ensures lmConfigs.ConfiguredFor(apiBase)
  {
    var convSimulatorLm := KamiwazaModel("model", 500, apiBase);
    var questionAskerLm := KamiwazaModel("model", 500, apiBase);
    var outlineGenLm := KamiwazaModel("model", 400, apiBase);
    var articleGenLm := KamiwazaModel("model", 700, apiBase);
    var articlePolishLm := KamiwazaModel("model", 4000, apiBase);

    lmConfigs.SetConvSimulatorLm(convSimulatorLm);
    lmConfigs.SetQuestionAskerLm(questionAskerLm);
    lmConfigs.SetOutlineGenLm(outlineGenLm);
    lmConfigs.SetArticleGenLm(articleGenLm);
    lmConfigs.SetArticlePolishLm(articlePolishLm);
  }
}
