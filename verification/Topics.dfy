/** Topic matching: the documented match on dotted segments against the match on characters that the broker performs. */
module Topics {
  import opened Prelude
  import opened Frames
  import opened BrokerTables

  /** The dot-separated segments of a topic. */
  function Segments(s: string): (r: seq<string>)
    ensures r != [] && r[0] == (if SplitOnce(s).Some? then SplitOnce(s).value.0 else s)
    ensures |r| == 1 <==> '.' !in s
    decreases |s|
  {
    match SplitOnce(s)
    case None => [s]
    case Some(p) => [p.0] + Segments(p.1)
  }

  /** The documented match: the topic is the prefix itself or has it as a dot-separated ancestor. */
  predicate DottedMatch(prefix: string, topic: string) {
    Segments(prefix) <= Segments(topic)
  }

  /** A text without dots followed by a dot is what a topic starts with exactly when it is its first segment. */
  lemma FirstSegment(a: string, topic: string)
    requires '.' !in a
    ensures a + "." <= topic <==> SplitOnce(topic).Some? && SplitOnce(topic).value.0 == a
  {
    if a + "." <= topic {
      var rest := topic[|a| + 1..];
      assert topic == Join(a, rest);
      SplitJoined(a, rest);
    }
  }

  lemma JoinPrefix(a: string, x: string, y: string)
    ensures x <= y <==> Join(a, x) <= Join(a, y)
    ensures x == y <==> Join(a, x) == Join(a, y)
  {
    assert forall z: string :: Join(a, z)[|a| + 1..] == z;
  }

  /** On characters, the documented match is equality or a match of the prefix with a dot behind it. */
  lemma {:induction false} DottedMatchOnCharacters(prefix: string, topic: string)
    ensures DottedMatch(prefix, topic) <==> topic == prefix || prefix + "." <= topic
    decreases |prefix|
  {
    match SplitOnce(prefix)
    case None => OneSegment(prefix, topic);
    case Some(p) =>
      FirstSegment(p.0, topic);
      assert p.0 + "." <= prefix && p.0 + "." <= prefix + ".";
      if p.0 + "." <= topic {
        var rest := SplitOnce(topic).value.1;
        DottedMatchOnCharacters(p.1, rest);
        JoinPrefix(p.0, p.1, rest);
        JoinPrefix(p.0, p.1 + ".", rest);
        assert prefix + "." == Join(p.0, p.1 + ".");
        FirstDropped([p.0] + Segments(p.1), [p.0] + Segments(rest));
      } else {
        assert |Segments(prefix)| > 1;
        FirstDiffers(prefix, topic);
      }
  }

  lemma OneSegment(prefix: string, topic: string)
    requires '.' !in prefix
    ensures DottedMatch(prefix, topic) <==> topic == prefix || prefix + "." <= topic
  {
    FirstSegment(prefix, topic);
    assert Segments(prefix) == [prefix];
    assert [prefix] <= Segments(topic) <==> Segments(topic)[0] == prefix;
  }

  lemma FirstDropped(x: seq<string>, y: seq<string>)
    requires x != [] && y != [] && x[0] == y[0]
    ensures x <= y <==> x[1..] <= y[1..]
  {
    assert x == [x[0]] + x[1..] && y == [y[0]] + y[1..];
  }

  lemma FirstDiffers(prefix: string, topic: string)
    requires SplitOnce(prefix).Some? && !(SplitOnce(prefix).value.0 + "." <= topic)
    ensures !DottedMatch(prefix, topic) && topic != prefix && !(prefix + "." <= topic)
  {
    var a := SplitOnce(prefix).value.0;
    FirstSegment(a, topic);
    assert a + "." <= prefix <= prefix + ".";
    assert |Segments(prefix)| > 1 && Segments(prefix)[0] == a;
    assert |Segments(topic)| == 1 || Segments(topic)[0] != a;
  }

  /**
   * The broker's match differs from the documented one exactly when the prefix ends inside a segment of the topic, and
   * then it is the broker that sends too much.
   */
  lemma MatchDiffersExactly(prefix: string, topic: string)
    ensures (Wants({prefix}, topic) <==> !DottedMatch(prefix, topic)) <==>
              prefix <= topic && |prefix| < |topic| && topic[|prefix|] != '.'
    ensures DottedMatch(prefix, topic) ==> Wants({prefix}, topic)
  {
    DottedMatchOnCharacters(prefix, topic);
    assert prefix + "." <= topic <==> prefix <= topic && |prefix| < |topic| && topic[|prefix|] == '.';
    assert Wants({prefix}, topic) <==> prefix <= topic;
  }

  /** What a subscriber should write: a prefix with a dot behind it matches exactly the strict descendants. */
  lemma TrailingDotMeansDescendants(prefix: string, topic: string)
    ensures Wants({prefix + "."}, topic) <==> DottedMatch(prefix, topic) && topic != prefix
  {
    DottedMatchOnCharacters(prefix, topic);
    assert Wants({prefix + "."}, topic) <==> prefix + "." <= topic;
  }

  /** A subscriber gets a topic it did not ask for exactly when each prefix that starts it ends inside a segment. */
  lemma OverreachExactly(prefixes: set<string>, topic: string)
    ensures Wants(prefixes, topic) && (forall p :: p in prefixes ==> !DottedMatch(p, topic)) <==>
              && (exists p :: p in prefixes && p <= topic)
              && (forall p :: p in prefixes && p <= topic ==> |p| < |topic| && topic[|p|] != '.')
  {
    forall p | p in prefixes
      ensures !DottedMatch(p, topic) <==> (p <= topic ==> |p| < |topic| && topic[|p|] != '.')
    {
      MatchDiffersExactly(p, topic);
      assert Wants({p}, topic) <==> p <= topic;
    }
  }

  /** A topic outside the documented match that is delivered all the same. */
  lemma PrefixIgnoresDots()
    ensures Wants({"job"}, "jobs.done") && !DottedMatch("job", "jobs.done")
  {
    MatchDiffersExactly("job", "jobs.done");
  }
}
