/** Subject and consumer names on the `tasks` stream, and the recovery of a task
    id from a consumer name at worker start-up. */
module Naming {

  const IntakeSubject: string := "tasks.internal"
  const InternalConsumer: string := "internal-consumer"
  const ExecutePrefix: string := "tasks.execute."
  const ConsumerPrefix: string := "consumer-"

  /** The subject a task's occurrences are published to. */
  function ExecuteSubject(taskId: string): string
  {
    ExecutePrefix + taskId
  }

  /** The durable consumer that delivers a task's occurrences. */
  function ConsumerName(taskId: string): string
  {
    ConsumerPrefix + taskId
  }

  /** `pat` occurs in `s` starting at index `i`. */
  predicate OccursAt(pat: string, s: string, i: nat)
  {
    i + |pat| <= |s| && s[i..i + |pat|] == pat
  }

  predicate Occurs(pat: string, s: string)
  {
    exists i: nat | i <= |s| :: OccursAt(pat, s, i)
  }

  /** `strings.ReplaceAll(s, pat, "")`: scanning from the left, every
      non-overlapping occurrence of `pat` is deleted. */
  function RemoveAll(s: string, pat: string): (r: string)
    requires |pat| > 0
    ensures |r| <= |s|
    ensures |r| == |s| ==> r == s
    decreases |s|
  {
    if |s| < |pat| then s
    else if s[..|pat|] == pat then RemoveAll(s[|pat|..], pat)
    else [s[0]] + RemoveAll(s[1..], pat)
  }

  /** The task id recovered from a listed consumer name. */
  function TaskIdOf(name: string): string
  {
    RemoveAll(name, ConsumerPrefix)
  }

  /** A string in which `pat` does not occur is left as it is. */
  lemma {:induction false} RemoveAllAbsent(s: string, pat: string)
    requires |pat| > 0 && !Occurs(pat, s)
    ensures RemoveAll(s, pat) == s
    decreases |s|
  {
    if |s| >= |pat| {
      assert !OccursAt(pat, s, 0);
      forall i: nat | i <= |s[1..]| && OccursAt(pat, s[1..], i)
        ensures false
      {
        assert i + 1 + |pat| <= |s|;
        assert s[1..][i..i + |pat|] == s[i + 1..i + 1 + |pat|];
        assert OccursAt(pat, s, i + 1);
      }
      RemoveAllAbsent(s[1..], pat);
      assert [s[0]] + s[1..] == s;
    }
  }

  /** Recovery inverts the naming of task.go whenever the id does not itself
      contain "consumer-". */
  lemma TaskIdOfConsumerName(taskId: string)
    requires !Occurs(ConsumerPrefix, taskId)
    ensures TaskIdOf(ConsumerName(taskId)) == taskId
  {
    var name := ConsumerName(taskId);
    assert name[..|ConsumerPrefix|] == ConsumerPrefix;
    assert name[|ConsumerPrefix|..] == taskId;
    RemoveAllAbsent(taskId, ConsumerPrefix);
  }

  /** The condition is needed: two different ids whose consumers are both
      listed at start-up are recovered as the same id. */
  lemma TaskIdOfLosesNestedPrefix()
    ensures ConsumerName("consumer-a") != ConsumerName("a")
    ensures TaskIdOf(ConsumerName("consumer-a")) == "a" == TaskIdOf(ConsumerName("a"))
  {
    assert "a" == ['a'];
    assert !Occurs(ConsumerPrefix, "a");
    TaskIdOfConsumerName("a");
    var n := ConsumerName("consumer-a");
    assert n[..|ConsumerPrefix|] == ConsumerPrefix;
    assert n[|ConsumerPrefix|..] == ConsumerName("a");
  }

  /** The internal consumer's name has no "consumer-" in it, so recovery takes
      it for a task of the same name. */
  lemma TaskIdOfInternalConsumer()
    ensures TaskIdOf(InternalConsumer) == InternalConsumer
  {
    forall i: nat
      ensures !OccursAt(ConsumerPrefix, InternalConsumer, i)
    {
      if i + |ConsumerPrefix| <= |InternalConsumer| {
        var w := InternalConsumer[i..i + |ConsumerPrefix|];
        if i == 0 {
          assert w[0] == 'i' != ConsumerPrefix[0];
        } else {
          assert w[8] == InternalConsumer[i + 8] != '-' == ConsumerPrefix[8];
        }
      }
    }
    RemoveAllAbsent(InternalConsumer, ConsumerPrefix);
  }

  /** Consumer names and execute subjects determine their task ids, and no
      execute subject is the intake subject. */
  lemma NamesAreDistinct(a: string, b: string)
    ensures ConsumerName(a) == ConsumerName(b) <==> a == b
    ensures ExecuteSubject(a) == ExecuteSubject(b) <==> a == b
    ensures ExecuteSubject(a) != IntakeSubject
    ensures ConsumerName(a) != InternalConsumer
  {
    if ConsumerName(a) == ConsumerName(b) {
      assert a == ConsumerName(a)[|ConsumerPrefix|..];
    }
    if ExecuteSubject(a) == ExecuteSubject(b) {
      assert a == ExecuteSubject(a)[|ExecutePrefix|..];
    }
    assert ExecuteSubject(a)[6] == 'e' && IntakeSubject[6] == 'i';
    assert ConsumerName(a)[0] == 'c' && InternalConsumer[0] == 'i';
  }
}
