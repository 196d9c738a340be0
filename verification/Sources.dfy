/**
 Task sources, and the interleavings of a batch over a given source: which steps its pulls and tasks can
 take, and what a run has recorded about them.
 */
module Sources {
  import opened Protocol

  datatype Pulled = Item(task: Behaviour) | End | Unwinds

  /** A task source: whether its conversion into an iterator returns, and what each pull yields. */
  datatype Source = Source(converts: bool, at: nat -> Pulled)

  /** The step is one that this source and its tasks can take. */
  predicate Follows(src: Source, s: State, l: Label) {
    match l
    case Convert => src.converts
    case ConvertUnwind => !src.converts
    case PullAccept => src.at(s.accepted).Item?
    case PullExcess => src.at(s.accepted).Item?
    case PullDiscard => src.at(s.accepted).Item?
    case PullNone => src.at(s.accepted).End?
    case PullUnwind => src.at(s.accepted).Unwinds?
    case Finish(w, end) => w < |s.jobs| && s.jobs[w].Running? && src.at(s.jobs[w].token) == Item(end)
    case _ => true
  }

  /** A step of a batch over `src`. */
  predicate CanStep(cfg: Config, src: Source, s: State, l: Label) {
    Enabled(cfg, s, l) && Follows(src, s, l)
  }

  /** The labels are one interleaving of a batch over `src`. */
  ghost predicate RunOf(cfg: Config, src: Source, labels: seq<Label>)
    decreases |labels|, 1
  {
    labels == [] || LastFollows(cfg, src, labels)
  }

  ghost predicate LastFollows(cfg: Config, src: Source, labels: seq<Label>)
    requires labels != []
    decreases |labels|, 0
  {
    var n := |labels| - 1;
    && RunOf(cfg, src, labels[..n])
    && Run(cfg, labels[..n]) && Run(cfg, labels)
    && Follows(src, After(cfg, labels[..n]), labels[n])
  }

  /** `labels` is an interleaving over `src` that leads to `s`. */
  ghost predicate Traced(cfg: Config, src: Source, labels: seq<Label>, s: State) {
    RunOf(cfg, src, labels) && Run(cfg, labels) && After(cfg, labels) == s
  }

  /** What the state has recorded about the source and its tasks is true of them. */
  ghost predicate Agrees(src: Source, s: State) {
    && (forall i: nat :: i < s.accepted ==> src.at(i).Item?)
    && (forall k :: 0 <= k < |s.log| ==> src.at(s.log[k].index) == Item(s.log[k].end))
    && (s.exhausted ==> src.at(s.accepted).End?)
    && (s.excess ==> src.at(s.accepted).Item?)
    && (s.producer.Unwound? ==> if s.jobs == [] then !src.converts else src.at(s.accepted).Unwinds?)
    && (!s.producer.Converting? && !(s.producer.Unwound? && s.jobs == []) ==> src.converts)
  }

  lemma StepKeepsAgrees(cfg: Config, src: Source, s: State, l: Label)
    requires cfg.Valid() && Inv(cfg, s) && Agrees(src, s) && CanStep(cfg, src, s, l)
    ensures Agrees(src, Apply(cfg, s, l))
  {
    if l.Finish? {
      FinishKeepsAgrees(cfg, src, s, l.job, l.end);
    } else {
      assert Apply(cfg, s, l).log == s.log;
    }
  }

  lemma FinishKeepsAgrees(cfg: Config, src: Source, s: State, w: nat, end: Behaviour)
    requires Agrees(src, s) && CanStep(cfg, src, s, Finish(w, end))
    ensures Agrees(src, Apply(cfg, s, Finish(w, end)))
  {
  }

  lemma {:induction false} RunAgrees(cfg: Config, src: Source, labels: seq<Label>)
    requires cfg.Valid() && RunOf(cfg, src, labels)
    ensures Run(cfg, labels) && Inv(cfg, After(cfg, labels)) && Agrees(src, After(cfg, labels))
  {
    if labels != [] {
      var n := |labels| - 1;
      assert LastFollows(cfg, src, labels);
      var before := RunInit(cfg, labels);
      RunAgrees(cfg, src, labels[..n]);
      StepKeepsAgrees(cfg, src, before, labels[n]);
      ReachableInv(cfg, labels);
    }
  }

  lemma TracedInv(cfg: Config, src: Source, labels: seq<Label>, s: State)
    requires cfg.Valid() && Traced(cfg, src, labels, s)
    ensures Inv(cfg, s) && Agrees(src, s)
  {
    RunAgrees(cfg, src, labels);
  }

  /** An interleaving extended by a step. */
  lemma ExtendTrace(cfg: Config, src: Source, labels: seq<Label>, s: State, l: Label)
    requires Traced(cfg, src, labels, s) && CanStep(cfg, src, s, l)
    ensures Traced(cfg, src, labels + [l], Apply(cfg, s, l))
  {
    RunAppend(cfg, labels, l);
    assert (labels + [l])[..|labels|] == labels;
    assert LastFollows(cfg, src, labels + [l]);
  }
}
