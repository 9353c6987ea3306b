/** The figures the dashboard page (client/src/pages/Dashboard.tsx) derives from the progress
    document: subtopic totals, the overall DSA percentage and the average interview confidence. */
module Dashboard {
  import opened Rounding
  import opened StoreModel

  /** `topics.reduce((acc, t) => acc + t.subtopics.length, 0)`: every topic's subtopics are
      counted, and the total is 0 exactly when no topic has any. */
  function TotalSubtopics(topics: seq<Topic>): (n: nat)
    ensures forall i :: 0 <= i < |topics| ==> |topics[i].subtopics| <= n
    ensures n == 0 <==> forall i :: 0 <= i < |topics| ==> topics[i].subtopics == []
  {
    if topics == [] then 0
    else
      var rest := TotalSubtopics(topics[1..]);
      assert forall i :: 1 <= i < |topics| ==> topics[i] == topics[1..][i - 1];
      |topics[0].subtopics| + rest
  }

  /** `topics.reduce((acc, t) => acc + t.subtopics.filter(s => s.completed).length, 0)`: every
      topic's completed subtopics are counted, and no more subtopics are completed than there are. */
  function CompletedSubtopics(topics: seq<Topic>): (c: nat)
    ensures forall i :: 0 <= i < |topics| ==> CompletedCount(topics[i].subtopics) <= c
    ensures c <= TotalSubtopics(topics)
  {
    if topics == [] then 0
    else
      var rest := CompletedSubtopics(topics[1..]);
      assert forall i :: 1 <= i < |topics| ==> topics[i] == topics[1..][i - 1];
      CompletedCount(topics[0].subtopics) + rest
  }

  /** Completed equals total exactly when every subtopic of every topic is completed. */
  lemma {:induction false} AllCompletedIffFull(topics: seq<Topic>)
    ensures CompletedSubtopics(topics) == TotalSubtopics(topics) <==>
      forall i, j :: 0 <= i < |topics| && 0 <= j < |topics[i].subtopics| ==> topics[i].subtopics[j].completed
  {
    if topics != [] {
      AllCompletedIffFull(topics[1..]);
      assert forall i :: 1 <= i < |topics| ==> topics[i] == topics[1..][i - 1];
    }
  }

  /** Nothing is completed exactly when no subtopic of any topic is completed. */
  lemma {:induction false} NoneCompletedIffEmpty(topics: seq<Topic>)
    ensures CompletedSubtopics(topics) == 0 <==>
      forall i, j :: 0 <= i < |topics| && 0 <= j < |topics[i].subtopics| ==> !topics[i].subtopics[j].completed
  {
    if topics != [] {
      NoneCompletedIffEmpty(topics[1..]);
      assert forall i :: 1 <= i < |topics| ==> topics[i] == topics[1..][i - 1];
    }
  }

  /** `Math.round((completedSubtopics / totalSubtopics) * 100) || 0`: the overall DSA percentage,
      0 when there are no subtopics (the NaN of 0 / 0 turns into 0), 0 when nothing and 100 when
      everything is completed. */
  function TotalProgress(topics: seq<Topic>): (p: int)
    ensures 0 <= p <= 100
    ensures TotalSubtopics(topics) == 0 ==> p == 0
    ensures CompletedSubtopics(topics) == 0 ==> p == 0
    ensures TotalSubtopics(topics) > 0 && CompletedSubtopics(topics) == TotalSubtopics(topics) ==> p == 100
  {
    var total := TotalSubtopics(topics);
    if total == 0 then 0
    else
      var completed := CompletedSubtopics(topics);
      RoundRatioBetween(100 * completed, total, 0, 100);
      RoundRatioExact(0, total);
      RoundRatioExact(100, total);
      RoundRatio(100 * completed, total)
  }

  /** `b` is `a` with some more subtopics completed: the same topics and subtopic lists in shape,
      and nothing completed in `a` is open in `b`. */
  ghost predicate MoreComplete(a: seq<Topic>, b: seq<Topic>)
  {
    && |a| == |b|
    && (forall i :: 0 <= i < |a| ==> |a[i].subtopics| == |b[i].subtopics|)
    && (forall i, j :: 0 <= i < |a| && 0 <= j < |a[i].subtopics| && a[i].subtopics[j].completed ==>
          b[i].subtopics[j].completed)
  }

  lemma {:induction false} CompletedCountMonotone(a: seq<Subtopic>, b: seq<Subtopic>)
    requires |a| == |b|
    requires forall j :: 0 <= j < |a| && a[j].completed ==> b[j].completed
    ensures CompletedCount(a) <= CompletedCount(b)
  {
    if a != [] {
      CompletedCountMonotone(a[1..], b[1..]);
    }
  }

  lemma {:induction false} MoreCompleteCounts(a: seq<Topic>, b: seq<Topic>)
    requires MoreComplete(a, b)
    ensures TotalSubtopics(a) == TotalSubtopics(b)
    ensures CompletedSubtopics(a) <= CompletedSubtopics(b)
  {
    if a != [] {
      CompletedCountMonotone(a[0].subtopics, b[0].subtopics);
      assert MoreComplete(a[1..], b[1..]) by {
        forall i | 0 <= i < |a| - 1 ensures |a[1..][i].subtopics| == |b[1..][i].subtopics| {
          assert a[1..][i] == a[i + 1] && b[1..][i] == b[i + 1];
        }
        forall i, j | 0 <= i < |a| - 1 && 0 <= j < |a[1..][i].subtopics| && a[1..][i].subtopics[j].completed
          ensures b[1..][i].subtopics[j].completed
        {
          assert a[1..][i] == a[i + 1] && b[1..][i] == b[i + 1];
        }
      }
      MoreCompleteCounts(a[1..], b[1..]);
    }
  }

  /** Completing more subtopics never lowers the overall percentage. */
  lemma TotalProgressMonotone(a: seq<Topic>, b: seq<Topic>)
    requires MoreComplete(a, b)
    ensures TotalProgress(a) <= TotalProgress(b)
  {
    MoreCompleteCounts(a, b);
    if TotalSubtopics(a) > 0 {
      RoundRatioMonotone(100 * CompletedSubtopics(a), 100 * CompletedSubtopics(b), TotalSubtopics(a));
    }
  }

  /** Toggling a subtopic that is open (wherever its id occurs in the targeted topics) completes it,
      so the overall percentage cannot drop. */
  lemma ToggleOpenSubtopicRaisesProgress(topics: seq<Topic>, topicId: int, subtopicId: string)
    requires forall i, j ::
      (0 <= i < |topics| && topics[i].id == topicId && 0 <= j < |topics[i].subtopics| &&
       topics[i].subtopics[j].id == subtopicId) ==> !topics[i].subtopics[j].completed
    ensures TotalProgress(topics) <= TotalProgress(ToggleSubtopic(topics, topicId, subtopicId))
  {
    var r := ToggleSubtopic(topics, topicId, subtopicId);
    assert MoreComplete(topics, r);
    TotalProgressMonotone(topics, r);
  }

  /** `reduce((acc, s) => acc + s.confidence, 0)` over the subjects: with every confidence on the
      1 to 5 scale, n subjects sum to between n and 5n. */
  function ConfidenceSum(subjects: seq<InterviewSubject>): (sum: int)
    ensures (forall i :: 0 <= i < |subjects| ==> 1 <= subjects[i].confidence <= 5) ==>
      |subjects| <= sum <= 5 * |subjects|
  {
    if subjects == [] then 0
    else
      assert forall i :: 1 <= i < |subjects| ==> subjects[i] == subjects[1..][i - 1];
      subjects[0].confidence + ConfidenceSum(subjects[1..])
  }

  /** `Math.round(sum / subjects.length * 20) || 0`: the average confidence on a 0 to 100 scale,
      0 without subjects (the NaN of 0 / 0 turns into 0). */
  function AvgInterviewConfidence(subjects: seq<InterviewSubject>): (r: int)
    ensures subjects == [] ==> r == 0
  {
    if subjects == [] then 0 else RoundRatio(20 * ConfidenceSum(subjects), |subjects|)
  }

  /** With every confidence on the 1 to 5 scale of the schema, the average lies between 20 and 100. */
  lemma AvgInterviewConfidenceBounds(subjects: seq<InterviewSubject>)
    requires subjects != []
    requires forall i :: 0 <= i < |subjects| ==> 1 <= subjects[i].confidence <= 5
    ensures 20 <= AvgInterviewConfidence(subjects) <= 100
  {
    RoundRatioBetween(20 * ConfidenceSum(subjects), |subjects|, 20, 100);
  }

  /** The subtopic count of each topic. */
  function SubtopicCounts(topics: seq<Topic>): seq<nat>
  {
    seq(|topics|, i requires 0 <= i < |topics| => |topics[i].subtopics|)
  }

  function Sum(xs: seq<nat>): nat
  {
    if xs == [] then 0 else xs[0] + Sum(xs[1..])
  }

  /** The total is the sum of the per-topic counts. */
  lemma {:induction false} TotalSubtopicsIsSum(topics: seq<Topic>)
    ensures TotalSubtopics(topics) == Sum(SubtopicCounts(topics))
  {
    if topics != [] {
      TotalSubtopicsIsSum(topics[1..]);
      assert SubtopicCounts(topics)[1..] == SubtopicCounts(topics[1..]);
    }
  }

  /** The seed topics hold 33 subtopics: 6, 4, 2 and then seven topics of 3. */
  lemma SeedTotalSubtopics()
    ensures TotalSubtopics(SeedTopics) == 33
  {
    var counts := [6, 4, 2, 3, 3, 3, 3, 3, 3, 3];
    assert SubtopicCounts(SeedTopics) == counts;
    assert Sum(counts[9..]) == 3;
    assert Sum(counts[8..]) == 6 by { assert counts[8..][1..] == counts[9..]; }
    assert Sum(counts[7..]) == 9 by { assert counts[7..][1..] == counts[8..]; }
    assert Sum(counts[6..]) == 12 by { assert counts[6..][1..] == counts[7..]; }
    assert Sum(counts[5..]) == 15 by { assert counts[5..][1..] == counts[6..]; }
    assert Sum(counts[4..]) == 18 by { assert counts[4..][1..] == counts[5..]; }
    assert Sum(counts[3..]) == 21 by { assert counts[3..][1..] == counts[4..]; }
    assert Sum(counts[2..]) == 23 by { assert counts[2..][1..] == counts[3..]; }
    assert Sum(counts[1..]) == 27 by { assert counts[1..][1..] == counts[2..]; }
    assert Sum(counts) == 33;
    TotalSubtopicsIsSum(SeedTopics);
  }

  /** On a freshly seeded document nothing is completed, so the overall progress is 0%. */
  lemma SeedTotalProgress()
    ensures TotalProgress(SeedTopics) == 0
  {
    SeedCatalogue(0);
    NoneCompletedIffEmpty(SeedTopics);
  }

  /** The seed subjects' confidences 2, 3, 1, 5 and 1 average to 48 on the 0 to 100 scale. */
  lemma SeedAvgInterviewConfidence()
    ensures AvgInterviewConfidence(SeedSubjects) == 48
  {
    var ss := SeedSubjects;
    assert ConfidenceSum(ss[4..]) == 1;
    assert ConfidenceSum(ss[3..]) == 6 by { assert ss[3..][1..] == ss[4..]; }
    assert ConfidenceSum(ss[2..]) == 7 by { assert ss[2..][1..] == ss[3..]; }
    assert ConfidenceSum(ss[1..]) == 10 by { assert ss[1..][1..] == ss[2..]; }
    assert ConfidenceSum(ss) == 12;
    RoundRatioUnique(240, 5, 48);
  }
}
