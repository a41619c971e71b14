/**
 The per-entity field loop every reader of the engine runs: read pairs until
 the next code-0 tag, push that tag back, and hand each other pair first to a
 kind-specific step and, if the step does not claim it, to common-field
 reading. The generic loop, the DIMENSION loop, the unsupported-kind swallow
 loop and the four custom readers (through `next_pair!`) all have this shape;
 they differ only in their step.
 */
module FieldLoop {
  import opened CodePairs
  import opened CodePairPutBack
  import opened Entities
  import opened Catalogues

  /** What a kind-specific step did with one pair: claimed it (and produced
      the new state), or left it to common-field reading. */
  datatype Step<S> = Claimed(state: S) | Unclaimed

  /** The loop. The error for a pair that is neither read nor a tag is the
      step's or the common reader's; end of input before a tag is
      `UnexpectedEndOfInput`; an error item is returned as it is. */
  function ReadFields<S>(cat: Catalogue, step: (S, CodePair) -> Result<Step<S>>,
                         state: S, common: EntityCommon, s: Stream)
    : (r: (Result<(S, EntityCommon)>, Stream))
    requires cat.Valid()
    ensures IsSuffix(View(r.1), View(s))
    ensures r.0.Ok? ==> |View(r.1)| > 0 && IsTag(View(r.1)[0])
    ensures View(s) == [] ==> r.0 == Err(UnexpectedEndOfInput)
    ensures View(s) != [] && IsTag(View(s)[0]) ==> r.0 == Ok((state, common)) && View(r.1) == View(s)
    ensures View(s) != [] && View(s)[0].Err? ==> r.0 == Err(View(s)[0].error)
    decreases |View(s)|
  {
    var (item, s1) := Next(s);
    match item
    case None => (Err(UnexpectedEndOfInput), s1)
    case Some(Err(e)) => (Err(e), s1)
    case Some(Ok(pair)) =>
      if pair.code == 0 then
        (Ok((state, common)), PutBack(s1, Ok(pair)))
      else
        assert View(s1) == View(s)[1..];
        var claim := step(state, pair);
        if claim.Err? then (Err(claim.error), s1)
        else if claim.value.Claimed? then
          var r := ReadFields(cat, step, claim.value.state, common, s1);
          SuffixTransitive(View(r.1), View(s1), View(s));
          r
        else
          var (c, s2) := cat.applyIndividualPair(common, pair, s1);
          SuffixTransitive(View(s2), View(s1), View(s));
          if c.Err? then (Err(c.error), s2)
          else
            var r := ReadFields(cat, step, state, c.value, s2);
            SuffixTransitive(View(r.1), View(s2), View(s));
            r
  }

  /** Reference semantics of a step over a list of pairs: fold the step,
      skipping the pairs it leaves to common-field reading. */
  function Run<S>(step: (S, CodePair) -> Result<Step<S>>, state: S, pairs: seq<CodePair>): Result<S>
    decreases |pairs|
  {
    if pairs == [] then Ok(state)
    else
      var claim := step(state, pairs[0]);
      if claim.Err? then Err(claim.error)
      else if claim.value.Claimed? then Run(step, claim.value.state, pairs[1..])
      else Run(step, state, pairs[1..])
  }

  function Oks(pairs: seq<CodePair>): (r: seq<Item>)
    ensures |r| == |pairs|
    ensures forall i :: 0 <= i < |pairs| ==> r[i] == Ok(pairs[i])
  {
    seq(|pairs|, i requires 0 <= i < |pairs| => Ok(pairs[i]))
  }

  predicate NoTags(pairs: seq<CodePair>) {
    forall i :: 0 <= i < |pairs| ==> pairs[i].code != 0
  }

  /** A catalogue whose common-field reading reads nothing beyond the pair it
      is given and never fails. */
  ghost predicate Transparent(cat: Catalogue) {
    forall c, p, s :: cat.applyIndividualPair(c, p, s).1 == s && cat.applyIndividualPair(c, p, s).0.Ok?
  }

  /** A step that claims every pair (the swallow loop's). */
  ghost predicate ClaimsAll<S(!new)>(step: (S, CodePair) -> Result<Step<S>>) {
    forall st, p :: step(st, p).Ok? && step(st, p).value.Claimed?
  }

  /** The step, run over `pairs` from `state`, claims every pair up to the
      first error: common-field reading is never asked. */
  ghost predicate Claims<S>(step: (S, CodePair) -> Result<Step<S>>, state: S, pairs: seq<CodePair>)
    decreases |pairs|
  {
    pairs == [] ||
      var claim := step(state, pairs[0]);
      claim.Err? || (claim.value.Claimed? && Claims(step, claim.value.state, pairs[1..]))
  }

  lemma RunCons<S>(step: (S, CodePair) -> Result<Step<S>>, state: S, p: CodePair, ps: seq<CodePair>)
    ensures Run(step, state, [p] + ps) ==
      var claim := step(state, p);
      if claim.Err? then Err(claim.error)
      else if claim.value.Claimed? then Run(step, claim.value.state, ps)
      else Run(step, state, ps)
  {
    assert ([p] + ps)[1..] == ps;
  }

  /** When the entity's pairs are followed by a tag and common-field reading
      takes nothing extra (or is never asked), the loop computes exactly the
      fold of its step over those pairs and stops in front of the tag. */
  lemma {:induction false} ReadFieldsFollowsRun<S(!new)>(
    cat: Catalogue, step: (S, CodePair) -> Result<Step<S>>, state: S, common: EntityCommon,
    s: Stream, pairs: seq<CodePair>, tag: CodePair, tail: seq<Item>)
    requires cat.Valid()
    requires Transparent(cat) || Claims(step, state, pairs)
    requires NoTags(pairs) && tag.code == 0
    requires View(s) == Oks(pairs) + [Ok(tag)] + tail
    ensures var r := ReadFields(cat, step, state, common, s);
      && (r.0.Ok? <==> Run(step, state, pairs).Ok?)
      && (r.0.Ok? ==> r.0.value.0 == Run(step, state, pairs).value && View(r.1) == [Ok(tag)] + tail)
      && (r.0.Err? ==> r.0.error == Run(step, state, pairs).error)
      && (r.0.Ok? && Claims(step, state, pairs) ==> r.0.value.1 == common)
    decreases |pairs|
  {
    var (item, s1) := Next(s);
    if pairs == [] {
      assert View(s)[0] == Ok(tag);
    } else {
      var p := pairs[0];
      assert item == Some(Ok(p));
      assert View(s1) == Oks(pairs[1..]) + [Ok(tag)] + tail by {
        assert View(s1) == View(s)[1..];
        assert Oks(pairs)[1..] == Oks(pairs[1..]);
      }
      var claim := step(state, p);
      if claim.Ok? && claim.value.Claimed? {
        ReadFieldsFollowsRun(cat, step, claim.value.state, common, s1, pairs[1..], tag, tail);
      } else if claim.Ok? {
        var (c, s2) := cat.applyIndividualPair(common, p, s1);
        ReadFieldsFollowsRun(cat, step, state, c.value, s2, pairs[1..], tag, tail);
      }
    }
  }

  /** A step that claims every pair claims any run of pairs. */
  lemma {:induction false} ClaimsAllClaims<S(!new)>(step: (S, CodePair) -> Result<Step<S>>, state: S, pairs: seq<CodePair>)
    requires ClaimsAll(step)
    ensures Claims(step, state, pairs)
    decreases |pairs|
  {
    if pairs != [] {
      ClaimsAllClaims(step, step(state, pairs[0]).value.state, pairs[1..]);
    }
  }

  /** Running over two lists is running over the first, then over the second
      from where the first stopped. */
  lemma {:induction false} RunAppend<S>(step: (S, CodePair) -> Result<Step<S>>, state: S, a: seq<CodePair>, b: seq<CodePair>)
    ensures Run(step, state, a + b) ==
      if Run(step, state, a).Err? then Run(step, state, a) else Run(step, Run(step, state, a).value, b)
    ensures Claims(step, state, a) && Run(step, state, a).Ok? && Claims(step, Run(step, state, a).value, b)
      ==> Claims(step, state, a + b)
    decreases |a|
  {
    if a != [] {
      assert (a + b)[0] == a[0];
      assert (a + b)[1..] == a[1..] + b;
      var claim := step(state, a[0]);
      if claim.Ok? {
        RunAppend(step, if claim.value.Claimed? then claim.value.state else state, a[1..], b);
      }
    } else {
      assert a + b == b;
    }
  }

  /** Input that ends before any tag is truncated: the loop fails, with the
      step's own error if the step rejects a pair first and with
      `UnexpectedEndOfInput` otherwise. */
  lemma {:induction false} ReadFieldsTruncated<S(!new)>(
    cat: Catalogue, step: (S, CodePair) -> Result<Step<S>>, state: S, common: EntityCommon,
    s: Stream, pairs: seq<CodePair>)
    requires cat.Valid()
    requires Transparent(cat) || Claims(step, state, pairs)
    requires NoTags(pairs)
    requires View(s) == Oks(pairs)
    ensures var r := ReadFields(cat, step, state, common, s);
      && r.0.Err?
      && r.0.error == (if Run(step, state, pairs).Ok? then UnexpectedEndOfInput else Run(step, state, pairs).error)
    decreases |pairs|
  {
    var (item, s1) := Next(s);
    if pairs != [] {
      var p := pairs[0];
      assert item == Some(Ok(p));
      assert View(s1) == Oks(pairs[1..]) by {
        assert Oks(pairs)[1..] == Oks(pairs[1..]);
      }
      var claim := step(state, p);
      if claim.Ok? && claim.value.Claimed? {
        ReadFieldsTruncated(cat, step, claim.value.state, common, s1, pairs[1..]);
      } else if claim.Ok? {
        var (c, s2) := cat.applyIndividualPair(common, p, s1);
        ReadFieldsTruncated(cat, step, state, c.value, s2, pairs[1..]);
      }
    }
  }
}
