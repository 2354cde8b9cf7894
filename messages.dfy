/** The role-tagged records of the conversation sent to the completion service. */
module Messages {

  datatype Role = System | User | Assistant

  datatype Message = Message(role: Role, content: string)

  /** `GptModel.format_input`: a prompt as a user record. */
  function FormatInput(prompt: string): Message
  {
    Message(User, prompt)
  }

  /** `GptModel.format_output`: a reply as an assistant record. */
  function FormatOutput(reply: string): Message
  {
    Message(Assistant, reply)
  }

  /** The contents of the records of `ms` tagged `role`, in order. */
  function ContentsWith(role: Role, ms: seq<Message>): (r: seq<string>)
    ensures |r| <= |ms|
  {
    if ms == [] then []
    else
      var last := ms[|ms| - 1];
      ContentsWith(role, ms[..|ms| - 1]) + (if last.role == role then [last.content] else [])
  }

  /** Appending a record extends exactly the contents of its own role. */
  lemma ContentsWithAppend(role: Role, ms: seq<Message>, m: Message)
    ensures ContentsWith(role, ms + [m]) == ContentsWith(role, ms) + (if m.role == role then [m.content] else [])
  {
    assert (ms + [m])[..|ms|] == ms;
  }

  /** A prompt formatted by `FormatInput` is seen as user content and nothing else. */
  lemma FormatInputContents(ms: seq<Message>, prompt: string)
    ensures ContentsWith(User, ms + [FormatInput(prompt)]) == ContentsWith(User, ms) + [prompt]
    ensures ContentsWith(Assistant, ms + [FormatInput(prompt)]) == ContentsWith(Assistant, ms)
    ensures ContentsWith(System, ms + [FormatInput(prompt)]) == ContentsWith(System, ms)
  {
    ContentsWithAppend(User, ms, FormatInput(prompt));
    ContentsWithAppend(Assistant, ms, FormatInput(prompt));
    ContentsWithAppend(System, ms, FormatInput(prompt));
  }

  /** A reply formatted by `FormatOutput` is seen as assistant content and nothing else. */
  lemma FormatOutputContents(ms: seq<Message>, reply: string)
    ensures ContentsWith(Assistant, ms + [FormatOutput(reply)]) == ContentsWith(Assistant, ms) + [reply]
    ensures ContentsWith(User, ms + [FormatOutput(reply)]) == ContentsWith(User, ms)
    ensures ContentsWith(System, ms + [FormatOutput(reply)]) == ContentsWith(System, ms)
  {
    ContentsWithAppend(User, ms, FormatOutput(reply));
    ContentsWithAppend(Assistant, ms, FormatOutput(reply));
    ContentsWithAppend(System, ms, FormatOutput(reply));
  }

  /** Every record has exactly one role, so the per-role contents add up to the whole. */
  lemma {:induction false} RoleCount(ms: seq<Message>)
    ensures |ms| == |ContentsWith(System, ms)| + |ContentsWith(User, ms)| + |ContentsWith(Assistant, ms)|
  {
    if ms != [] {
      RoleCount(ms[..|ms| - 1]);
    }
  }
  /**
   * Every assistant record of `ms` comes directly after a user record: a reply
   * is appended only right after the prompt it answers.
   */
  ghost predicate Paired(ms: seq<Message>)
  {
    forall i :: 0 <= i < |ms| && ms[i].role == Assistant ==> 0 < i && ms[i - 1].role == User
  }

  /** A prompt may always be appended. */
  lemma PairedAppendInput(ms: seq<Message>, prompt: string)
    requires Paired(ms)
    ensures Paired(ms + [FormatInput(prompt)])
  {
    var ms' := ms + [FormatInput(prompt)];
    forall i | 0 <= i < |ms'| && ms'[i].role == Assistant
      ensures 0 < i && ms'[i - 1].role == User
    {
      assert ms'[i] == ms[i];
    }
  }

  /** A reply may be appended right after a prompt. */
  lemma PairedAppendOutput(ms: seq<Message>, reply: string)
    requires Paired(ms)
    requires ms != [] && ms[|ms| - 1].role == User
    ensures Paired(ms + [FormatOutput(reply)])
  {
    var ms' := ms + [FormatOutput(reply)];
    forall i | 0 <= i < |ms'| && ms'[i].role == Assistant
      ensures 0 < i && ms'[i - 1].role == User
    {
      if i < |ms| {
        assert ms'[i] == ms[i];
      }
    }
  }

  /**
   * In a paired sequence there are never more replies than prompts, and
   * strictly fewer while the last record is a prompt still waiting for one.
   */
  lemma {:induction false} PairedCounts(ms: seq<Message>)
    requires Paired(ms)
    ensures |ContentsWith(Assistant, ms)| <= |ContentsWith(User, ms)|
    ensures ms != [] && ms[|ms| - 1].role == User ==> |ContentsWith(Assistant, ms)| < |ContentsWith(User, ms)|
  {
    if ms != [] {
      var init := ms[..|ms| - 1];
      assert Paired(init) by {
        forall i | 0 <= i < |init| && init[i].role == Assistant
          ensures 0 < i && init[i - 1].role == User
        {
          assert init[i] == ms[i] && init[i - 1] == ms[i - 1];
        }
      }
      PairedCounts(init);
      if ms[|ms| - 1].role == Assistant {
        assert init[|init| - 1] == ms[|ms| - 2];
      }
    }
  }

  /**
   * A paired sequence without system records and with as many replies as
   * prompts is the prompts and replies alternating: prompt i at position 2i,
   * its reply right after it.
   */
  lemma {:induction false} Alternating(ms: seq<Message>)
    requires Paired(ms)
    requires ContentsWith(System, ms) == []
    requires |ContentsWith(User, ms)| == |ContentsWith(Assistant, ms)|
    ensures |ms| == 2 * |ContentsWith(User, ms)|
    ensures forall i :: 0 <= i < |ContentsWith(User, ms)| ==>
      && ms[2 * i] == FormatInput(ContentsWith(User, ms)[i])
      && ms[2 * i + 1] == FormatOutput(ContentsWith(Assistant, ms)[i])
  {
    RoleCount(ms);
    if ms != [] {
      var n := |ms|;
      PairedCounts(ms);
      assert ms[n - 1].role == Assistant;
      var init := ms[..n - 2];
      assert ms[..n - 1] == init + [ms[n - 2]];
      assert ms == init + [ms[n - 2]] + [ms[n - 1]];
      ContentsWithAppend(User, init, ms[n - 2]);
      ContentsWithAppend(Assistant, init, ms[n - 2]);
      ContentsWithAppend(System, init, ms[n - 2]);
      ContentsWithAppend(User, init + [ms[n - 2]], ms[n - 1]);
      ContentsWithAppend(Assistant, init + [ms[n - 2]], ms[n - 1]);
      ContentsWithAppend(System, init + [ms[n - 2]], ms[n - 1]);
      assert Paired(init) by {
        forall i | 0 <= i < |init| && init[i].role == Assistant
          ensures 0 < i && init[i - 1].role == User
        {
          assert init[i] == ms[i] && init[i - 1] == ms[i - 1];
        }
      }
      Alternating(init);
      var users, replies := ContentsWith(User, ms), ContentsWith(Assistant, ms);
      assert users == ContentsWith(User, init) + [ms[n - 2].content];
      assert replies == ContentsWith(Assistant, init) + [ms[n - 1].content];
      forall i | 0 <= i < |users|
        ensures ms[2 * i] == FormatInput(users[i]) && ms[2 * i + 1] == FormatOutput(replies[i])
      {
        if 2 * i + 1 < |init| {
          assert ms[2 * i] == init[2 * i] && ms[2 * i + 1] == init[2 * i + 1];
        }
      }
    }
  }
}
