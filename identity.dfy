/**
 * Network identities (XMPP JIDs), taken as already parsed into their two parts.
 * The resource part of a JID plays no role in the Artifact and is not modelled.
 */
module Identity {
  /** An identity `localpart@domain`; an empty local part stands for the
      absent (`None`) local part of a domain-only identity. */
  datatype Jid = Jid(localpart: string, domain: string)

  /** What parsing guarantees: no part holds the separator, and the domain is present. */
  predicate WellFormed(j: Jid) {
    '@' !in j.localpart && '@' !in j.domain && j.domain != ""
  }

  /** The textual form of an identity; a domain-only identity has no '@'. */
  function ToText(j: Jid): string {
    if j.localpart == "" then j.domain else j.localpart + "@" + j.domain
  }

  /** The text before the first '@' of `s` (all of `s` when it has none). */
  function BeforeAt(s: string): (r: string)
    ensures |r| <= |s| && r == s[..|r|]
    ensures '@' !in r
    ensures |r| < |s| ==> s[|r|] == '@'
  {
    if s == [] || s[0] == '@' then [] else [s[0]] + BeforeAt(s[1..])
  }

  /** Joining a separator-free text to anything with '@' puts that text before the '@'. */
  lemma {:induction false} BeforeAtOfJoin(a: string, b: string)
    requires '@' !in a
    ensures BeforeAt(a + "@" + b) == a
  {
    if a == [] {
      assert (a + "@" + b)[0] == '@';
    } else {
      assert (a + "@" + b)[0] == a[0];
      assert (a + "@" + b)[1..] == a[1..] + "@" + b;
      BeforeAtOfJoin(a[1..], b);
    }
  }
}
