/**
 * The conversation transcript of one chat session and the two pure views of
 * it: the provider request (every entry turned into a role-tagged provider
 * message) and the rendered history (every entry except the system ones).
 */
module Messages {

  /** The three role names the session ever stores (apps.py:42, 60, 84). */
  const SystemRole: string := "system"
  const UserRole: string := "user"
  const AssistantRole: string := "assistant"

  /** The persona the transcript is seeded with (apps.py:42). */
  const Persona: string := "You are a helpful assistant."

  /**
   * One transcript entry, a dictionary with a "role" and a "content" key.
   * The role is kept as the string the source compares against, so an entry
   * with some other role can be represented and the projection's treatment
   * of it stated.
   */
  datatype Msg = Msg(role: string, content: string)

  /** The single entry a fresh transcript holds. */
  const Seed: Msg := Msg(SystemRole, Persona)

  predicate KnownRole(role: string) {
    role == UserRole || role == AssistantRole || role == SystemRole
  }

  predicate AllKnown(ms: seq<Msg>) {
    forall i :: 0 <= i < |ms| ==> KnownRole(ms[i].role)
  }

  datatype Option<T> = None | Some(value: T)

  /** The provider's message classes: human, AI and system messages. */
  datatype ProviderMsg =
    | HumanMessage(content: string)
    | AIMessage(content: string)
    | SystemMessage(content: string)

  /** The transcript entry a provider message stands for. */
  function FromProvider(p: ProviderMsg): (m: Msg)
    ensures KnownRole(m.role) && m.content == p.content
  {
    match p
    case HumanMessage(c) => Msg(UserRole, c)
    case AIMessage(c) => Msg(AssistantRole, c)
    case SystemMessage(c) => Msg(SystemRole, c)
  }

  /**
   * The provider message one transcript entry becomes, or None when its
   * role is none of the three the projection recognises.
   */
  function ToProvider(m: Msg): (r: Option<ProviderMsg>)
    ensures r.Some? <==> KnownRole(m.role)
    ensures r.Some? ==> FromProvider(r.value) == m
  {
    if m.role == UserRole then Some(HumanMessage(m.content))
    else if m.role == AssistantRole then Some(AIMessage(m.content))
    else if m.role == SystemRole then Some(SystemMessage(m.content))
    else None
  }

  /**
   * The provider request built from a transcript: the entries in order, each
   * converted by ToProvider, entries with an unrecognised role dropped.
   */
  function Project(ms: seq<Msg>): (r: seq<ProviderMsg>)
    ensures |r| <= |ms|
  {
    if ms == [] then []
    else
      var rest := Project(ms[..|ms| - 1]);
      match ToProvider(ms[|ms| - 1])
      case Some(p) => rest + [p]
      case None => rest
  }

  /** Reads a provider request back as transcript entries. */
  function Unproject(ps: seq<ProviderMsg>): (r: seq<Msg>)
    ensures |r| == |ps|
  {
    if ps == [] then [] else Unproject(ps[..|ps| - 1]) + [FromProvider(ps[|ps| - 1])]
  }

  /** Message i of a request reads back as entry i. */
  lemma {:induction false} UnprojectAt(ps: seq<ProviderMsg>, i: nat)
    requires i < |ps|
    ensures Unproject(ps)[i] == FromProvider(ps[i])
  {
    if i < |ps| - 1 {
      UnprojectAt(ps[..|ps| - 1], i);
    }
  }

  /** A provider message survives being read back and converted again. */
  lemma ToFromProvider(p: ProviderMsg)
    ensures ToProvider(FromProvider(p)) == Some(p)
  {
  }

  /** The entries of a transcript whose role is one of the three known ones. */
  function KnownOnly(ms: seq<Msg>): (r: seq<Msg>)
    ensures |r| <= |ms|
    ensures AllKnown(r)
  {
    if ms == [] then []
    else if KnownRole(ms[0].role) then [ms[0]] + KnownOnly(ms[1..])
    else KnownOnly(ms[1..])
  }

  /** The kept entries are exactly the transcript's entries of a known role. */
  lemma {:induction false} KnownOnlyMembers(ms: seq<Msg>, m: Msg)
    ensures m in KnownOnly(ms) <==> m in ms && KnownRole(m.role)
  {
    if ms != [] {
      KnownOnlyMembers(ms[1..], m);
      assert ms == [ms[0]] + ms[1..];
    }
  }

  lemma {:induction false} KnownOnlyAppend(a: seq<Msg>, b: seq<Msg>)
    ensures KnownOnly(a + b) == KnownOnly(a) + KnownOnly(b)
  {
    if a != [] {
      assert (a + b)[0] == a[0] && (a + b)[1..] == a[1..] + b;
      KnownOnlyAppend(a[1..], b);
    } else {
      assert a + b == b;
    }
  }

  /** On a transcript holding only the three known roles, nothing is dropped. */
  lemma {:induction false} KnownOnlyAllKnown(ms: seq<Msg>)
    requires AllKnown(ms)
    ensures KnownOnly(ms) == ms
  {
    if ms != [] {
      KnownOnlyAllKnown(ms[1..]);
    }
  }

  /** Projecting a concatenation projects each part. */
  lemma {:induction false} ProjectAppend(a: seq<Msg>, b: seq<Msg>)
    ensures Project(a + b) == Project(a) + Project(b)
  {
    if b == [] {
      assert a + b == a;
    } else {
      var b' := b[..|b| - 1];
      assert (a + b)[..|a + b| - 1] == a + b';
      assert (a + b)[|a + b| - 1] == b[|b| - 1];
      ProjectAppend(a, b');
    }
  }

  /**
   * Reading the request back gives exactly the transcript's known-role
   * entries, in the same order, with the same roles and contents.
   */
  lemma {:induction false} ProjectRoundTrip(ms: seq<Msg>)
    ensures Unproject(Project(ms)) == KnownOnly(ms)
  {
    if ms != [] {
      var init, last := ms[..|ms| - 1], ms[|ms| - 1];
      assert ms == init + [last];
      ProjectRoundTrip(init);
      KnownOnlyAppend(init, [last]);
      var tail := Project([last]);
      assert [last][..0] == [];
      assert tail == if KnownRole(last.role) then [ToProvider(last).value] else [];
      UnprojectAppend(Project(init), tail);
    }
  }

  lemma UnprojectAppend(a: seq<ProviderMsg>, b: seq<ProviderMsg>)
    ensures Unproject(a + b) == Unproject(a) + Unproject(b)
  {
    forall i | 0 <= i < |a + b|
      ensures Unproject(a + b)[i] == (Unproject(a) + Unproject(b))[i]
    {
      UnprojectAt(a + b, i);
      if i < |a| {
        UnprojectAt(a, i);
      } else {
        UnprojectAt(b, i - |a|);
      }
    }
  }

  /** On a transcript holding only the three known roles, nothing is dropped from the request. */
  lemma ProjectLength(ms: seq<Msg>)
    requires AllKnown(ms)
    ensures |Project(ms)| == |ms|
  {
    ProjectRoundTrip(ms);
    KnownOnlyAllKnown(ms);
  }

  /**
   * On a transcript holding only the three known roles the request has one
   * message per entry (ProjectLength), and entry i becomes the message of the matching kind
   * with the same content.
   */
  lemma ProjectFaithful(ms: seq<Msg>)
    requires AllKnown(ms)
    ensures |Project(ms)| == |ms|
    ensures forall i :: 0 <= i < |ms| ==> ToProvider(ms[i]) == Some(Project(ms)[i])
    ensures Unproject(Project(ms)) == ms
  {
    ProjectLength(ms);
    ProjectRoundTrip(ms);
    KnownOnlyAllKnown(ms);
    forall i | 0 <= i < |ms|
      ensures ToProvider(ms[i]) == Some(Project(ms)[i])
    {
      UnprojectAt(Project(ms), i);
      ToFromProvider(Project(ms)[i]);
    }
  }

  /**
   * The builder loop: walks the transcript and appends one provider message
   * per entry of a known role.
   */
  method BuildProviderMessages(ms: seq<Msg>) returns (out: seq<ProviderMsg>)
    ensures out == Project(ms)
    ensures Unproject(out) == KnownOnly(ms)
  {
    out := [];
    var i := 0;
    while i < |ms|
      invariant 0 <= i <= |ms|
      invariant out == Project(ms[..i])
    {
      var m := ms[i];
      assert ms[..i + 1][..i] == ms[..i];
      if m.role == UserRole {
        out := out + [HumanMessage(m.content)];
      } else if m.role == AssistantRole {
        out := out + [AIMessage(m.content)];
      } else if m.role == SystemRole {
        out := out + [SystemMessage(m.content)];
      }
      i := i + 1;
    }
    assert ms[..i] == ms;
    ProjectRoundTrip(ms);
  }

  /** The rendered history: every entry whose role is not "system", in order. */
  function Visible(ms: seq<Msg>): (r: seq<Msg>)
    ensures |r| <= |ms|
    ensures NoSystem(r)
  {
    if ms == [] then []
    else if ms[0].role == SystemRole then Visible(ms[1..])
    else [ms[0]] + Visible(ms[1..])
  }

  predicate NoSystem(ms: seq<Msg>) {
    forall i :: 0 <= i < |ms| ==> ms[i].role != SystemRole
  }

  /** The rendered entries are exactly the transcript's non-system entries. */
  lemma {:induction false} VisibleMembers(ms: seq<Msg>, m: Msg)
    ensures m in Visible(ms) <==> m in ms && m.role != SystemRole
  {
    if ms != [] {
      VisibleMembers(ms[1..], m);
      assert ms == [ms[0]] + ms[1..];
    }
  }

  lemma {:induction false} VisibleAppend(a: seq<Msg>, b: seq<Msg>)
    ensures Visible(a + b) == Visible(a) + Visible(b)
  {
    if a != [] {
      assert (a + b)[0] == a[0] && (a + b)[1..] == a[1..] + b;
      VisibleAppend(a[1..], b);
    } else {
      assert a + b == b;
    }
  }

  /** A transcript without system entries is rendered in full. */
  lemma {:induction false} VisibleNoSystem(ms: seq<Msg>)
    requires NoSystem(ms)
    ensures Visible(ms) == ms
  {
    if ms != [] {
      VisibleNoSystem(ms[1..]);
    }
  }
}
