/**
 * The hybrid decision `clasificar_texto`: ask the zero-shot model, when one is loaded, and keep its
 * top label only if its score reaches that label's confidence threshold; in every other case
 * (no model, an inference failure, a score below the threshold) answer what the keyword
 * classifier answers.
 *
 * The model is an oracle: `infer(text, labels, templates)` stands for the call of the inference
 * pipeline and returns its ranked labels and scores, or the failure it raised.
 */
module Hybrid {
  import opened Optional
  import opened Categories

  datatype Inference =
    | Raised(message: string)
    | Ranked(labels: seq<Category>, scores: seq<real>)

  /** The one-time outcome of loading a model: none could be loaded, or a loaded inference pipeline. */
  datatype Classifier =
    | NotLoaded
    | Loaded(infer: (string, seq<Category>, seq<string>) -> Inference)

  /** The candidate labels given to the model: the keys of `CATEGORIAS`, in order ("otros" is not among them). */
  function CandidateLabels(): (labels: seq<Category>)
    ensures |labels| == |Categorias|
    ensures forall i :: 0 <= i < |labels| ==> labels[i] == Categorias[i].category
  {
    seq(|Categorias|, i requires 0 <= i < |Categorias| => Categorias[i].category)
  }

  /** One hypothesis sentence per candidate label. */
  function HypothesisTemplates(): (templates: seq<string>)
    ensures |templates| == |CandidateLabels()|
    ensures forall i :: 0 <= i < |templates| ==>
              templates[i] == "Este ticket trata sobre " + Name(CandidateLabels()[i]) + "."
  {
    seq(|Categorias|, i requires 0 <= i < |Categorias| => "Este ticket trata sobre " + Name(Categorias[i].category) + ".")
  }

  /** `umbrales.get(label, umbrales["default"])`: logística 0.4, otros 0.3, every other label 0.5. */
  function Umbral(c: Category): (threshold: real)
    ensures 0.3 <= threshold <= 0.5
    ensures threshold == 0.5 <==> c != Logistica && c != Otros
  {
    match c
    case Logistica => 0.4
    case Otros => 0.3
    case _ => 0.5
  }

  /** `result['labels'][0]` and `result['scores'][0]`; absent when the call raised or either
      list is empty (indexing it would raise). */
  function TopPrediction(result: Inference): (top: Option<(Category, real)>)
    ensures top.Some? <==> result.Ranked? && |result.labels| > 0 && |result.scores| > 0
    ensures top.Some? ==> top.value == (result.labels[0], result.scores[0])
  {
    match result
    case Raised(_) => None
    case Ranked(labels, scores) =>
      if |labels| > 0 && |scores| > 0 then Some((labels[0], scores[0])) else None
  }

  /** What the loaded model proposes for `text`, if anything. */
  function ModelProposal(model: Classifier, text: string): Option<(Category, real)>
  {
    match model
    case NotLoaded => None
    case Loaded(infer) => TopPrediction(infer(text, CandidateLabels(), HypothesisTemplates()))
  }

  /** The model's proposal is kept: its score reaches the threshold of its label. */
  predicate Confident(proposal: Option<(Category, real)>)
  {
    proposal.Some? && proposal.value.1 >= Umbral(proposal.value.0)
  }

  /** `clasificar_texto`. */
  function ClasificarTexto(model: Classifier, text: string): (r: Category)
    ensures Confident(ModelProposal(model, text)) ==> r == ModelProposal(model, text).value.0
    ensures !Confident(ModelProposal(model, text)) ==> r == ClasificarConPalabrasClave(text)
  {
    match model
    case NotLoaded => ClasificarConPalabrasClave(text)
    case Loaded(infer) =>
      match infer(text, CandidateLabels(), HypothesisTemplates())
      case Raised(_) => ClasificarConPalabrasClave(text)
      case Ranked(labels, scores) =>
        if |labels| == 0 || |scores| == 0 then ClasificarConPalabrasClave(text)
        else if scores[0] >= Umbral(labels[0]) then labels[0]
        else ClasificarConPalabrasClave(text)
  }

  /** Without a model, or when inference raises, the decision is the keyword classifier's. */
  lemma FallbackWithoutModel(model: Classifier, text: string)
    requires model.NotLoaded? || model.infer(text, CandidateLabels(), HypothesisTemplates()).Raised?
    ensures ClasificarTexto(model, text) == ClasificarConPalabrasClave(text)
  {
  }

  /** With a model, the top label is returned exactly when its score reaches its threshold;
      below the threshold the answer is exactly the keyword classifier's, so a label that differs
      from the keyword answer is never returned unconfidently. */
  lemma ThresholdGate(model: Classifier, text: string, top: Category, score: real)
    requires model.Loaded?
    requires ModelProposal(model, text) == Some((top, score))
    ensures score >= Umbral(top) ==> ClasificarTexto(model, text) == top
    ensures score < Umbral(top) ==> ClasificarTexto(model, text) == ClasificarConPalabrasClave(text)
    ensures top != ClasificarConPalabrasClave(text) ==>
              (ClasificarTexto(model, text) == top <==> score >= Umbral(top))
  {
  }

  /** The answer is the keyword answer or a confident model proposal; nothing else can come out. */
  lemma DecisionSources(model: Classifier, text: string)
    ensures ClasificarTexto(model, text) == ClasificarConPalabrasClave(text)
            || (Confident(ModelProposal(model, text)) && ClasificarTexto(model, text) == ModelProposal(model, text).value.0)
  {
  }

  /** Thresholds lie between 0.3 and 0.5: a score of 0.5 or more is always kept and a score under
      0.3 never is. */
  lemma ThresholdBounds(model: Classifier, text: string)
    requires ModelProposal(model, text).Some?
    ensures ModelProposal(model, text).value.1 >= 0.5 ==> ClasificarTexto(model, text) == ModelProposal(model, text).value.0
    ensures ModelProposal(model, text).value.1 < 0.3 ==> ClasificarTexto(model, text) == ClasificarConPalabrasClave(text)
  {
  }

  /** "otros" is not offered to the model as a candidate label. */
  lemma OtrosNotCandidate()
    ensures Otros !in CandidateLabels()
  {
    var labels := CandidateLabels();
    forall i | 0 <= i < |labels| ensures labels[i] != Otros {
      assert labels[i] == Categorias[i].category;
    }
  }
}
