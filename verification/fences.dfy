/**
  The clean-up the generation route applies to the assistant's reply before
  parsing it as JSON: every "```json" is deleted, then every "```".
 */
module Fences {
  import opened Strings

  const Fence := "```"
  const JsonFence := "```json"

  /** `raw.replace(/```json/g, '').replace(/```/g, '')` */
  function StripFences(raw: string): string
  {
    DeleteAll(DeleteAll(raw, JsonFence), Fence)
  }

  predicate StartsWithTwoTicks(s: string)
  {
    |s| >= 2 && s[0] == '`' && s[1] == '`'
  }

  /** A first character other than a backtick survives the fence deletion. */
  lemma FirstCharKept(t: string)
    requires |t| > 0 && t[0] != '`'
    ensures |DeleteAll(t, Fence)| > 0 && DeleteAll(t, Fence)[0] == t[0]
  {
    if |t| >= 3 {
      assert t[..3] != Fence;
    }
  }

  /** Deleting fences never makes a string start with two backticks. */
  lemma NoLeadingPair(t: string)
    requires !StartsWithTwoTicks(t)
    ensures !StartsWithTwoTicks(DeleteAll(t, Fence))
  {
    if |t| >= 3 {
      assert t[..3] != Fence;
      if t[0] != '`' {
        FirstCharKept(t);
      } else {
        FirstCharKept(t[1..]);
      }
    }
  }

  /** A fence is three backticks. */
  lemma FenceTicks(s: string, i: nat)
    requires OccursAt(s, Fence, i)
    ensures s[i] == '`' && s[i + 1] == '`' && s[i + 2] == '`'
  {
    assert s[i..i + 3] == Fence;
    assert s[i] == Fence[0] && s[i + 1] == Fence[1] && s[i + 2] == Fence[2];
  }

  /** One character in front of a fence-free string makes no fence, unless it is a backtick before two more. */
  lemma NoFenceAfterChar(c: char, rest: string)
    requires !Occurs(rest, Fence)
    requires c == '`' ==> !StartsWithTwoTicks(rest)
    ensures !Occurs([c] + rest, Fence)
  {
    var r := [c] + rest;
    forall i: nat | OccursAt(r, Fence, i) ensures false {
      if i == 0 {
        FenceTicks(r, 0);
        assert StartsWithTwoTicks(rest);
      } else {
        assert r[i..i + 3] == rest[i - 1..i + 2];
        assert OccursAt(rest, Fence, i - 1);
      }
    }
  }

  /** After deleting every "```", none is left: the deletions never join backticks into a new fence. */
  lemma {:induction false} NoFenceLeft(s: string)
    ensures !Occurs(DeleteAll(s, Fence), Fence)
    decreases |s|
  {
    if |s| < 3 {
      forall i: nat | OccursAt(s, Fence, i) ensures false { }
    } else if s[..3] == Fence {
      NoFenceLeft(s[3..]);
    } else {
      NoFenceLeft(s[1..]);
      if s[0] == '`' {
        assert !StartsWithTwoTicks(s[1..]);
        NoLeadingPair(s[1..]);
      }
      NoFenceAfterChar(s[0], DeleteAll(s[1..], Fence));
    }
  }

  /** A string without "```" has no "```json" either. */
  lemma NoJsonFenceWithoutFence(s: string)
    requires !Occurs(s, Fence)
    ensures !Occurs(s, JsonFence)
  {
    forall i: nat | OccursAt(s, JsonFence, i) ensures false {
      assert s[i..i + 3] == s[i..i + 7][..3];
      assert OccursAt(s, Fence, i);
    }
  }

  /** The stripped text holds no "```". */
  lemma StripLeavesNoFence(raw: string)
    ensures !Occurs(StripFences(raw), Fence)
  {
    NoFenceLeft(DeleteAll(raw, JsonFence));
  }

  /** Text without "```" is left as it is. */
  lemma StripFenceFree(s: string)
    requires !Occurs(s, Fence)
    ensures StripFences(s) == s
  {
    NoJsonFenceWithoutFence(s);
    DeleteAllAbsent(s, JsonFence);
    DeleteAllAbsent(s, Fence);
  }

  /** Stripping twice is stripping once. */
  lemma StripIdempotent(raw: string)
    ensures StripFences(StripFences(raw)) == StripFences(raw)
  {
    StripLeavesNoFence(raw);
    StripFenceFree(StripFences(raw));
  }

  /** Text with no backtick at all is unchanged. */
  lemma StripWithoutBacktick(s: string)
    requires '`' !in s
    ensures StripFences(s) == s
  {
    forall i: nat | OccursAt(s, Fence, i) ensures false {
      FenceTicks(s, i);
    }
    StripFenceFree(s);
  }

  /** A reply wrapped as "```json" + body + "```", with no backtick in the body, strips to the body. */
  lemma StripWrappedReply(body: string)
    requires '`' !in body
    ensures StripFences(JsonFence + body + Fence) == body
  {
    var s := JsonFence + body + Fence;
    assert s[..7] == JsonFence && s[7..] == body + Fence;
    DeleteAllKeepsPrefix(body, Fence, JsonFence);
    assert DeleteAll(Fence, JsonFence) == Fence;
    DeleteAllKeepsPrefix(body, Fence, Fence);
    assert DeleteAll(Fence, Fence) == "";
    assert body + "" == body;
  }
}
