/** The image pyramid: each level is half the size of the one before, built on demand. */
module ImagePyramids {
  import opened Basics

  /** What the image library offers: halving an image, and the length of its larger side. */
  datatype Library<!I> = Library(shrink: I -> I, size: I -> nat)

  const SMALL := 256

  /** Halving makes every image that is not small smaller. */
  ghost predicate Shrinks<I(!new)>(lib: Library<I>) {
    forall i :: lib.size(i) > SMALL ==> lib.size(lib.shrink(i)) < lib.size(i)
  }

  function Shrunk<I>(lib: Library<I>, base: I, k: nat): I {
    if k == 0 then base else lib.shrink(Shrunk(lib, base, k - 1))
  }

  /** The first level that is small. */
  ghost function Last<I(!new)>(lib: Library<I>, i: I): nat
    requires Shrinks(lib)
    decreases lib.size(i)
  {
    if lib.size(i) <= SMALL then 0 else Last(lib, lib.shrink(i)) + 1
  }

  /** The pyramid as if it were built at once. */
  ghost function Eager<I(!new)>(lib: Library<I>, base: I): seq<I>
    requires Shrinks(lib)
  {
    seq(Last(lib, base) + 1, k requires 0 <= k => Shrunk(lib, base, k))
  }

  lemma {:induction false} LastIsFirstSmall<I(!new)>(lib: Library<I>, base: I, k: nat)
    requires Shrinks(lib)
    ensures k <= Last(lib, base) ==> Last(lib, Shrunk(lib, base, k)) == Last(lib, base) - k
    ensures k < Last(lib, base) ==> lib.size(Shrunk(lib, base, k)) > SMALL
    ensures k == Last(lib, base) ==> lib.size(Shrunk(lib, base, k)) <= SMALL
  {
    if k > 0 {
      LastIsFirstSmall(lib, base, k - 1);
    }
  }

  /** What a caller is given: the level and its image. */
  datatype Answer<I> = Answer(level: nat, image: I)

  /** The eager pyramid answers with the requested level, or the last one if that is too small. */
  ghost function EagerAnswer<I(!new)>(lib: Library<I>, base: I, level: nat): Answer<I>
    requires Shrinks(lib)
  {
    var k := Min(level, Last(lib, base));
    Answer(k, Eager(lib, base)[k])
  }

  /** The levels built so far are a part of the eager pyramid. */
  ghost predicate PartOf<I(!new)>(levels: seq<I>, lib: Library<I>, base: I)
    requires Shrinks(lib)
  {
    0 < |levels| <= Last(lib, base) + 1 && forall k :: 0 <= k < |levels| ==> levels[k] == Shrunk(lib, base, k)
  }

  lemma {:induction false} PartExtends<I(!new)>(levels: seq<I>, lib: Library<I>, base: I)
    requires Shrinks(lib) && PartOf(levels, lib, base)
    ensures lib.size(levels[|levels| - 1]) > SMALL <==> |levels| <= Last(lib, base)
    ensures |levels| <= Last(lib, base) ==> PartOf(levels + [lib.shrink(levels[|levels| - 1])], lib, base)
  {
    var n := |levels| - 1;
    LastIsFirstSmall(lib, base, n);
    assert lib.shrink(levels[n]) == Shrunk(lib, base, n + 1);
  }

  // -------------------------------------------------------------------------
  // Histories
  // -------------------------------------------------------------------------

  datatype Call<I> = Init(image: I) | Reset | GetLevel(level: nat)

  /** The loop that builds missing levels. */
  ghost function Built<I(!new)>(lib: Library<I>, levels: seq<I>, level: nat): (r: seq<I>)
    requires Shrinks(lib) && levels != []
    ensures r != []
    decreases lib.size(levels[|levels| - 1])
  {
    var last := levels[|levels| - 1];
    if |levels| > level || lib.size(last) <= SMALL then levels
    else Built(lib, levels + [lib.shrink(last)], level)
  }

  ghost function LevelsAfter<I(!new)>(lib: Library<I>, levels: seq<I>, call: Call<I>): seq<I>
    requires Shrinks(lib)
  {
    match call
    case Init(i) => [i]
    case Reset => if levels == [] then [] else [levels[0]]
    case GetLevel(level) => if levels == [] then [] else Built(lib, levels, level)
  }

  /** What a call answers when these levels are there. */
  function AnswerTo<I>(levels: seq<I>, call: Call<I>): seq<Option<Answer<I>>> {
    if !call.GetLevel? then []
    else if levels == [] then [None]
    else
      var k := Min(call.level, |levels| - 1);
      [Some(Answer(k, levels[k]))]
  }

  /** The answers to the calls of a history, none before the first Init. */
  ghost function Answers<I(!new)>(lib: Library<I>, levels: seq<I>, calls: seq<Call<I>>): seq<Option<Answer<I>>>
    requires Shrinks(lib)
    decreases |calls|
  {
    if calls == [] then []
    else
      var next := LevelsAfter(lib, levels, calls[0]);
      AnswerTo(next, calls[0]) + Answers(lib, next, calls[1..])
  }

  /** The same with eager pyramids; all that has to be remembered is the base image. */
  function BaseAfter<I>(base: Option<I>, call: Call<I>): Option<I> {
    if call.Init? then Some(call.image) else base
  }

  ghost function EagerTo<I(!new)>(lib: Library<I>, base: Option<I>, call: Call<I>): seq<Option<Answer<I>>>
    requires Shrinks(lib)
  {
    if !call.GetLevel? then []
    else [if base.None? then None else Some(EagerAnswer(lib, base.value, call.level))]
  }

  ghost function EagerAnswers<I(!new)>(lib: Library<I>, base: Option<I>, calls: seq<Call<I>>): seq<Option<Answer<I>>>
    requires Shrinks(lib)
    decreases |calls|
  {
    if calls == [] then []
    else EagerTo(lib, base, calls[0]) + EagerAnswers(lib, BaseAfter(base, calls[0]), calls[1..])
  }

  lemma {:induction false} BuiltIsPart<I(!new)>(lib: Library<I>, levels: seq<I>, level: nat, base: I)
    requires Shrinks(lib) && PartOf(levels, lib, base)
    ensures var r := Built(lib, levels, level);
            PartOf(r, lib, base) && |r| == if |levels| > level then |levels| else Min(level, Last(lib, base)) + 1
    decreases Last(lib, base) + 1 - |levels|
  {
    PartExtends(levels, lib, base);
    var last := levels[|levels| - 1];
    if |levels| <= level && lib.size(last) > SMALL {
      BuiltIsPart(lib, levels + [lib.shrink(last)], level, base);
    }
  }

  lemma {:induction false} BuiltAnswers<I(!new)>(lib: Library<I>, levels: seq<I>, level: nat, base: I)
    requires Shrinks(lib) && PartOf(levels, lib, base)
    ensures var r := Built(lib, levels, level);
            var k := Min(level, |r| - 1);
            PartOf(r, lib, base) && Answer(k, r[k]) == EagerAnswer(lib, base, level)
  {
    BuiltIsPart(lib, levels, level, base);
  }

  ghost predicate Tracks<I(!new)>(lib: Library<I>, levels: seq<I>, base: Option<I>)
    requires Shrinks(lib)
  {
    if base.None? then levels == [] else PartOf(levels, lib, base.value)
  }

  /** One call. */
  lemma CallIsEager<I(!new)>(lib: Library<I>, levels: seq<I>, base: Option<I>, call: Call<I>)
    requires Shrinks(lib) && Tracks(lib, levels, base)
    ensures Tracks(lib, LevelsAfter(lib, levels, call), BaseAfter(base, call))
    ensures AnswerTo(LevelsAfter(lib, levels, call), call) == EagerTo(lib, base, call)
  {
    if call.GetLevel? && base.Some? {
      BuiltAnswers(lib, levels, call.level, base.value);
    }
  }

  /** In every history of calls the pyramid built on demand answers like the eager one. */
  lemma {:induction false} LazyIsEager<I(!new)>(lib: Library<I>, levels: seq<I>, base: Option<I>, calls: seq<Call<I>>)
    requires Shrinks(lib) && Tracks(lib, levels, base)
    ensures Answers(lib, levels, calls) == EagerAnswers(lib, base, calls)
    decreases |calls|
  {
    if calls != [] {
      CallIsEager(lib, levels, base, calls[0]);
      LazyIsEager(lib, LevelsAfter(lib, levels, calls[0]), BaseAfter(base, calls[0]), calls[1..]);
    }
  }

  // -------------------------------------------------------------------------
  // The pyramid object
  // -------------------------------------------------------------------------

  class ImagePyramid<I(!new)> {
    const lib: Library<I>
    var levels: seq<I>

    constructor (l: Library<I>)
      ensures lib == l && levels == []
    {
      lib, levels := l, [];
    }

    method Init(img: I)
      requires Shrinks(lib)
      modifies this
      ensures levels == LevelsAfter(lib, old(levels), Call.Init(img))
    {
      levels := [];
      levels := levels + [img];
    }

    method Reset()
      requires Shrinks(lib)
      modifies this
      ensures levels == LevelsAfter(lib, old(levels), Call.Reset)
    {
      if |levels| < 1 {
        return;
      }
      var level := levels[0];
      levels := [];
      levels := levels + [level];
    }

    /** Builds missing levels until the requested one is there or the last one is small. */
    method GetLevel(level: nat) returns (r: Option<Answer<I>>)
      requires Shrinks(lib)
      modifies this
      ensures levels == LevelsAfter(lib, old(levels), Call.GetLevel(level))
      ensures [r] == AnswerTo(levels, Call.GetLevel(level))
    {
      if levels == [] {
        return None;
      }
      if level < |levels| {
        return Some(Answer(level, levels[level]));
      }
      var size := lib.size(levels[|levels| - 1]);
      while size > SMALL && |levels| != level + 1
        invariant levels != [] && |levels| <= level + 1
        invariant size == lib.size(levels[|levels| - 1])
        invariant Built(lib, levels, level) == Built(lib, old(levels), level)
        decreases size
      {
        var out := lib.shrink(levels[|levels| - 1]);
        size := lib.size(out);
        levels := levels + [out];
      }
      var actual := if |levels| < level + 1 then |levels| - 1 else level;
      r := Some(Answer(actual, levels[actual]));
    }
  }
}
