/** Grading answers and choosing among them
    (internal/orchestrator/grade.go; pickWinner in internal/orchestrator/race.go). */
module Grading {
  import opened Wrappers

  const FAILED := 0
  const UNSYNCED := 1
  const LINE := 2
  const WORD := 3

  datatype SyncType = Word | Syllable | Line | NoSync | Unset | Other

  /** A response: its declared type, and for each line whether it has syllables. */
  datatype Response = Response(kind: SyncType, lines: seq<bool>)

  predicate HasSyllableSync(r: Response) {
    r.kind.Word? || r.kind.Syllable? || exists i | 0 <= i < |r.lines| :: r.lines[i]
  }

  /** `trusted` says that the source's name marks its contents as reliable. */
  function Grade(r: Option<Response>, trusted: bool): nat {
    if r.None? || r.value.lines == [] then FAILED
    else match r.value.kind
      case Word => WORD
      case Syllable => WORD
      case Line => if trusted && HasSyllableSync(r.value) then WORD else LINE
      case NoSync => UNSYNCED
      case Unset => UNSYNCED
      case Other => UNSYNCED
  }

  /** A grade is at most WORD; it is FAILED exactly for an answer without lines, and WORD only for one
      that carries syllable timing or declares it. */
  lemma GradeMeans(r: Option<Response>, trusted: bool)
    ensures Grade(r, trusted) <= WORD
    ensures Grade(r, trusted) == FAILED <==> r.None? || r.value.lines == []
    ensures Grade(r, trusted) == WORD ==> HasSyllableSync(r.value)
    ensures Grade(r, false) <= Grade(r, true)
  {
  }

  datatype Result = Result(source: string, priority: int, hasLyrics: bool)

  /** Where a source stands in the order asked for; a composed answer stands for the source it came through. */
  function NameOrder(names: seq<string>, source: string): int {
    if source in names then LastIndex(names, source)
    else if source == "qaple" && "lyricsplus" in names then LastIndex(names, "lyricsplus")
    else 999
  }

  function LastIndex(names: seq<string>, x: string): (i: nat)
    requires x in names
    ensures i < |names| && names[i] == x && x !in names[i + 1..]
  {
    if names[|names| - 1] == x then |names| - 1
    else
      assert names == names[..|names| - 1] + [names[|names| - 1]];
      LastIndex(names[..|names| - 1], x)
  }

  predicate Answers(r: Option<Result>) { r.Some? && (r.value.priority > 0 || r.value.hasLyrics) }

  /** `w` has the highest priority there is, stands first in the order asked for among those that share
      it, and came first among those that share the place too. */
  ghost predicate FirstBest(results: seq<Option<Result>>, names: seq<string>, w: nat) {
    && w < |results| && results[w].Some?
    && forall i | 0 <= i < |results| && results[i].Some? ::
         var a, b := results[w].value, results[i].value;
         && b.priority <= a.priority
         && (b.priority == a.priority ==>
               var x, y := NameOrder(names, a.source), NameOrder(names, b.source);
               x < y || (x == y && w <= i))
  }

  /** The highest priority among the results, or -1. */
  method BestPriority(results: seq<Option<Result>>) returns (bestPrio: int, best: seq<nat>)
    ensures bestPrio >= -1 && forall i | 0 <= i < |results| && results[i].Some? :: results[i].value.priority <= bestPrio
    ensures forall k | 0 <= k < |best| ::
            best[k] < |results| && results[best[k]].Some? && results[best[k]].value.priority == bestPrio
    ensures bestPrio > -1 ==>
              forall i | 0 <= i < |results| && results[i].Some? && results[i].value.priority == bestPrio :: i in best
    ensures forall j, k | 0 <= j < k < |best| :: best[j] < best[k]
    ensures bestPrio > -1 ==> best != []
  {
    bestPrio, best := -1, [];
    for i := 0 to |results|
      invariant bestPrio >= -1 && forall j | 0 <= j < i && results[j].Some? :: results[j].value.priority <= bestPrio
      invariant forall k | 0 <= k < |best| ::
              best[k] < i && results[best[k]].Some? && results[best[k]].value.priority == bestPrio
      invariant bestPrio > -1 ==>
                  forall j | 0 <= j < i && results[j].Some? && results[j].value.priority == bestPrio :: j in best
      invariant forall j, k | 0 <= j < k < |best| :: best[j] < best[k]
      invariant bestPrio > -1 ==> best != []
    {
      if results[i].None? { continue; }
      if results[i].value.priority > bestPrio {
        bestPrio, best := results[i].value.priority, [i];
      } else if results[i].value.priority == bestPrio {
        best := best + [i];
      }
    }
  }

  /** What pickWinner promises: nothing only when nobody answered, an answer of the highest priority that stands first
      in the order asked for, and without any priority the first answer there is. */
  ghost predicate Picked(results: seq<Option<Result>>, names: seq<string>, w: Option<nat>) {
    && (w.None? <==> forall i | 0 <= i < |results| :: !Answers(results[i]))
    && (w.Some? ==> w.value < |results| && Answers(results[w.value]))
    && (w.Some? && (exists i :: 0 <= i < |results| && results[i].Some? && results[i].value.priority > 0) ==>
          FirstBest(results, names, w.value))
    && (w.Some? && (forall i | 0 <= i < |results| && results[i].Some? :: results[i].value.priority <= 0) ==>
          forall i | 0 <= i < w.value :: !Answers(results[i]))
  }

  /** pickWinner: the index of the answer to return, if any. */
  method PickWinner(results: seq<Option<Result>>, names: seq<string>) returns (w: Option<nat>)
    ensures Picked(results, names, w)
  {
    var bestPrio, best := BestPriority(results);
    if bestPrio <= 0 {
      for i := 0 to |results|
        invariant forall j | 0 <= j < i :: !Answers(results[j])
      {
        if results[i].Some? && results[i].value.hasLyrics {
          return Some(i);
        }
      }
      return None;
    }
    var winner := best[0];
    for k := 1 to |best|
      invariant winner in best[..k]
      invariant forall j | 0 <= j < k ::
                  var x := NameOrder(names, results[winner].value.source);
                  var y := NameOrder(names, results[best[j]].value.source);
                  x < y || (x == y && winner <= best[j])
    {
      if NameOrder(names, results[best[k]].value.source) < NameOrder(names, results[winner].value.source) {
        winner := best[k];
      }
    }
    return Some(winner);
  }
}
