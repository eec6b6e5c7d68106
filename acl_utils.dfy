/** The ACL entry builder: renders one structured ACL entry in the POSIX
    short text form `[default:]type:entity:perms` that setfacl consumes. */
module AclUtils {

  import opened Wrappers

  /** One ACL entry as it arrives in an RPC request. */
  datatype ACLEntry = ACLEntry(
    entityType: string,
    entity: string,
    permissions: string,
    isDefault: bool,
    action: string)

  /** The four fields the rendered text carries (everything but the action). */
  datatype EntryFields = EntryFields(
    isDefault: bool,
    entityType: string,
    entity: string,
    permissions: string)

  const DefaultPrefix: string := "default:"

  predicate ColonFree(s: string) {
    ':' !in s
  }

  /** The canonical entry string. The source's rewrite of an empty entity to
      the empty string is the identity, so the entity is used as it is. */
  function BuildACLEntry(e: ACLEntry): (r: string)
    ensures |r| == (if e.isDefault then |DefaultPrefix| else 0)
                   + |e.entityType| + |e.entity| + |e.permissions| + 2
    ensures e.isDefault ==> r[..|DefaultPrefix|] == DefaultPrefix
    ensures var off := if e.isDefault then |DefaultPrefix| else 0;
            r[off..] == e.entityType + ":" + e.entity + ":" + e.permissions
  {
    var prefix := if e.isDefault then DefaultPrefix else "";
    var entity := if e.entity == "" then "" else e.entity;
    prefix + e.entityType + ":" + entity + ":" + e.permissions
  }

  /** The rendered text depends on the four rendered fields only. */
  function FieldsOf(e: ACLEntry): EntryFields {
    EntryFields(e.isDefault, e.entityType, e.entity, e.permissions)
  }

  lemma ActionIrrelevant(e1: ACLEntry, e2: ACLEntry)
    requires FieldsOf(e1) == FieldsOf(e2)
    ensures BuildACLEntry(e1) == BuildACLEntry(e2)
  {
  }

  /** For an entity type that is colon-free and not itself "default", the
      text starts with the default prefix exactly when isDefault is set. */
  lemma DefaultPrefixIff(e: ACLEntry)
    requires ColonFree(e.entityType) && e.entityType != "default"
    ensures (|BuildACLEntry(e)| >= |DefaultPrefix|
             && BuildACLEntry(e)[..|DefaultPrefix|] == DefaultPrefix) <==> e.isDefault
  {
    if !e.isDefault && |BuildACLEntry(e)| >= |DefaultPrefix| {
      NoDefaultPrefix(e);
    }
  }

  lemma NoDefaultPrefix(e: ACLEntry)
    requires ColonFree(e.entityType) && e.entityType != "default"
    requires !e.isDefault && |BuildACLEntry(e)| >= |DefaultPrefix|
    ensures BuildACLEntry(e)[..|DefaultPrefix|] != DefaultPrefix
  {
    var r, t := BuildACLEntry(e), e.entityType;
    assert r == t + ":" + e.entity + ":" + e.permissions;
    if |t| > 7 {
      assert r[7] == t[7] != ':';
      assert r[..|DefaultPrefix|][7] != DefaultPrefix[7];
    } else if |t| < 7 {
      assert r[|t|] == ':' != DefaultPrefix[|t|];
      assert r[..|DefaultPrefix|][|t|] != DefaultPrefix[|t|];
    } else {
      assert r[..7] == t != "default" == DefaultPrefix[..7];
      assert r[..|DefaultPrefix|][..7] == r[..7];
    }
  }

  /** A non-default entry whose entity type is "default" is rendered with the
      default prefix all the same. */
  lemma DefaultTypeLooksDefault()
    ensures BuildACLEntry(ACLEntry("default", "alice", "rwx", false, "add"))[..|DefaultPrefix|]
         == DefaultPrefix
  {
  }

  /** Splits a string at every ':' (like strings.Split(s, ":")). */
  function Split(s: string): (parts: seq<string>)
    ensures |parts| >= 1
    ensures forall i :: 0 <= i < |parts| ==> ColonFree(parts[i])
    decreases |s|
  {
    if |s| == 0 then [""]
    else
      var rest := Split(s[1..]);
      if s[0] == ':' then [""] + rest
      else [[s[0]] + rest[0]] + rest[1..]
  }

  /** Joins parts with ':' in between (like strings.Join(parts, ":")). */
  function Join(parts: seq<string>): (s: string)
    requires |parts| >= 1
    ensures |s| >= |parts| - 1
    decreases |parts|
  {
    if |parts| == 1 then parts[0] else parts[0] + ":" + Join(parts[1..])
  }

  lemma {:induction false} SplitColonFree(a: string)
    requires ColonFree(a)
    ensures Split(a) == [a]
    decreases |a|
  {
    if |a| > 0 {
      SplitColonFree(a[1..]);
      assert [a[0]] + a[1..] == a;
    }
  }

  lemma {:induction false} SplitAtFirstColon(a: string, b: string)
    requires ColonFree(a)
    ensures Split(a + ":" + b) == [a] + Split(b)
    decreases |a|
  {
    var s := a + ":" + b;
    if |a| == 0 {
      assert s[0] == ':' && s[1..] == b;
    } else {
      assert s[0] == a[0];
      assert s[1..] == a[1..] + ":" + b;
      SplitAtFirstColon(a[1..], b);
      assert [a[0]] + a[1..] == a;
    }
  }

  /** Split undoes Join whenever no part contains ':'. */
  lemma {:induction false} SplitJoin(parts: seq<string>)
    requires |parts| >= 1
    requires forall i :: 0 <= i < |parts| ==> ColonFree(parts[i])
    ensures Split(Join(parts)) == parts
    decreases |parts|
  {
    if |parts| == 1 {
      SplitColonFree(parts[0]);
    } else {
      SplitJoin(parts[1..]);
      SplitAtFirstColon(parts[0], Join(parts[1..]));
      assert [parts[0]] + parts[1..] == parts;
    }
  }

  /** The builder renders the colon-separated join of its fields. */
  lemma BuildIsJoin(e: ACLEntry)
    ensures BuildACLEntry(e) == Join(RenderedParts(e))
  {
    var t, n, p := e.entityType, e.entity, e.permissions;
    assert Join([p]) == p;
    assert Join([n, p]) == n + ":" + p;
    assert Join([t, n, p]) == t + ":" + (n + ":" + p);
    if e.isDefault {
      var parts := RenderedParts(e);
      assert parts == ["default", t, n, p];
      assert parts[1..] == [t, n, p];
      assert Join(parts) == "default" + ":" + Join([t, n, p]);
      assert "default" + ":" == DefaultPrefix;
      assert DefaultPrefix + t + ":" + n + ":" + p == DefaultPrefix + (t + ":" + (n + ":" + p));
    } else {
      assert RenderedParts(e) == [t, n, p];
      assert t + ":" + n + ":" + p == t + ":" + (n + ":" + p);
    }
  }

  function RenderedParts(e: ACLEntry): (parts: seq<string>)
    ensures |parts| == if e.isDefault then 4 else 3
  {
    (if e.isDefault then ["default"] else []) + [e.entityType, e.entity, e.permissions]
  }

  /** Reads an entry text back: four fields led by "default", or three. */
  function ParseACLEntry(s: string): (r: Option<EntryFields>)
    ensures r.Some? ==> |Split(s)| == if r.value.isDefault then 4 else 3
  {
    var p := Split(s);
    if |p| == 4 && p[0] == "default" then Some(EntryFields(true, p[1], p[2], p[3]))
    else if |p| == 3 then Some(EntryFields(false, p[0], p[1], p[2]))
    else None
  }

  /** Round trip: with colon-free fields, splitting the rendered text on ':'
      recovers the default flag, entity type, entity and permissions. */
  lemma RoundTrip(e: ACLEntry)
    requires ColonFree(e.entityType) && ColonFree(e.entity) && ColonFree(e.permissions)
    ensures ParseACLEntry(BuildACLEntry(e)) == Some(FieldsOf(e))
  {
    BuildIsJoin(e);
    var parts := RenderedParts(e);
    assert forall i :: 0 <= i < |parts| ==> ColonFree(parts[i]);
    SplitJoin(parts);
  }

  /** With colon-free fields, equal texts come from equal rendered fields. */
  lemma Injective(e1: ACLEntry, e2: ACLEntry)
    requires ColonFree(e1.entityType) && ColonFree(e1.entity) && ColonFree(e1.permissions)
    requires ColonFree(e2.entityType) && ColonFree(e2.entity) && ColonFree(e2.permissions)
    requires BuildACLEntry(e1) == BuildACLEntry(e2)
    ensures FieldsOf(e1) == FieldsOf(e2)
  {
    RoundTrip(e1);
    RoundTrip(e2);
  }

  /** Without the colon-free premise the text is ambiguous: an unvalidated
      entity type "default:user" renders exactly like a default user entry. */
  lemma ColonInTypeForgesDefault()
    ensures BuildACLEntry(ACLEntry("default:user", "alice", "rwx", false, "add"))
         == BuildACLEntry(ACLEntry("user", "alice", "rwx", true, "add"))
  {
  }

  lemma ExampleUserAlice()
    ensures BuildACLEntry(ACLEntry("user", "alice", "rwx", false, "add")) == "user:alice:rwx"
  {
  }

  lemma ExampleEmptyEntity()
    ensures BuildACLEntry(ACLEntry("mask", "", "rwx", false, "modify")) == "mask::rwx"
  {
  }
}
