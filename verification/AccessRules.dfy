/** Who may use a wormhole: the comma-separated lists of allowed and forbidden users and groups. */
module AccessRules {
  import opened Filtering
  import opened Values

  // ---------- Splitting ----------

  /** How many characters come before the first comma. */
  function NameLength(s: string): (n: nat)
    ensures n <= |s|
    ensures ',' !in s[..n]
    ensures n < |s| ==> s[n] == ','
  {
    if s == "" || s[0] == ',' then 0 else 1 + NameLength(s[1..])
  }

  /** strings.FieldsFunc at commas: the names between runs of commas. */
  function Fields(s: string): seq<string>
    decreases |s|
  {
    if s == "" then []
    else if s[0] == ',' then Fields(s[1..])
    else [s[..NameLength(s)]] + Fields(s[NameLength(s)..])
  }

  /** Names with a comma between any two. */
  function Join(names: seq<string>): string {
    if names == [] then ""
    else if |names| == 1 then names[0]
    else names[0] + "," + Join(names[1..])
  }

  predicate IsName(name: string) {
    name != "" && ',' !in name
  }

  lemma {:induction false} NameLengthIs(s: string, n: nat)
    requires n <= |s| && ',' !in s[..n] && (n < |s| ==> s[n] == ',')
    ensures NameLength(s) == n
  {
    if n > 0 {
      assert s[..n][0] == s[0] && s[1..][..n - 1] == s[..n][1..];
      NameLengthIs(s[1..], n - 1);
    }
  }

  lemma OneField(s: string)
    requires ',' !in s
    ensures Fields(s) == if s == "" then [] else [s]
  {
    if s != "" {
      NameLengthIs(s, |s|);
      assert s[0] in s && s[..|s|] == s && Fields(s[|s|..]) == [];
    }
  }

  /** A comma separates, wherever it stands. */
  lemma {:induction false} FieldsSplitAtComma(s: string, t: string)
    ensures Fields(s + "," + t) == Fields(s) + Fields(t)
    decreases |s|
  {
    var whole := s + "," + t;
    if s == "" {
      assert whole[1..] == t;
    } else if s[0] == ',' {
      assert whole[1..] == s[1..] + "," + t;
      FieldsSplitAtComma(s[1..], t);
    } else {
      var n := NameLength(s);
      assert whole[n] == ',' && whole[..n] == s[..n];
      NameLengthIs(whole, n);
      assert whole[n..] == s[n..] + "," + t;
      FieldsSplitAtComma(s[n..], t);
    }
  }

  /** Splitting undoes joining. */
  lemma {:induction false} FieldsUndoJoin(names: seq<string>)
    requires forall name | name in names :: IsName(name)
    ensures Fields(Join(names)) == names
  {
    if names != [] {
      var first, rest := names[0], names[1..];
      assert IsName(first);
      OneField(first);
      FieldsUndoJoin(rest);
      if |names| > 1 {
        FieldsSplitAtComma(first, Join(rest));
        assert Join(names) == first + "," + Join(rest);
      }
    }
  }

  lemma {:induction false} FieldsAreNames(s: string)
    ensures forall name | name in Fields(s) :: IsName(name)
    decreases |s|
  {
    if s != "" {
      FieldsAreNames(s[if s[0] == ',' then 1 else NameLength(s)..]);
    }
  }

  /** Writing the names back with single commas and splitting again changes nothing. */
  lemma NormalFormIsStable(s: string)
    ensures Fields(Join(Fields(s))) == Fields(s)
  {
    FieldsAreNames(s);
    FieldsUndoJoin(Fields(s));
  }

  // ---------- Conflicts ----------

  function In<T(==)>(forbidden: seq<T>): T -> bool {
    (x: T) => x in forbidden
  }

  /** intersect: the allowed values that are also forbidden. */
  method Intersect<T(==)>(allowed: seq<T>, forbidden: seq<T>) returns (intersectionSet: seq<T>)
    ensures intersectionSet == Filter(allowed, In(forbidden))
  {
    intersectionSet := [];
    for i := 0 to |allowed|
      invariant intersectionSet == Filter(allowed[..i], In(forbidden))
    {
      assert allowed[..i + 1][..i] == allowed[..i];
      if allowed[i] in forbidden {
        intersectionSet := intersectionSet + [allowed[i]];
      }
    }
    assert allowed[..|allowed|] == allowed;
  }

  ghost predicate Disjoint<T>(xs: seq<T>, ys: seq<T>) {
    forall x | x in xs :: x !in ys
  }

  /**
   The intersection keeps the order and the multiplicity of the allowed values, and is empty
   for disjoint lists only.
   */
  lemma IntersectionIsOrdered<T>(allowed: seq<T>, forbidden: seq<T>)
    ensures var at := Positions(allowed, In(forbidden));
            && |Filter(allowed, In(forbidden))| == |at|
            && (forall k | 0 <= k < |at| :: at[k] < |allowed| && Filter(allowed, In(forbidden))[k] == allowed[at[k]])
            && (forall k, l | 0 <= k < l < |at| :: at[k] < at[l])
    ensures forall x ::
              multiset(Filter(allowed, In(forbidden)))[x] == if x in forbidden then multiset(allowed)[x] else 0
    ensures Filter(allowed, In(forbidden)) == [] <==> Disjoint(allowed, forbidden)
  {
    FilterIsExact(allowed, In(forbidden));
    forall x
      ensures multiset(Filter(allowed, In(forbidden)))[x] == if x in forbidden then multiset(allowed)[x] else 0
    {
      FilterKeepsMultiplicity(allowed, In(forbidden), x);
    }
    if !Disjoint(allowed, forbidden) {
      var x :| x in allowed && x in forbidden;
      var i :| 0 <= i < |allowed| && allowed[i] == x;
      assert In(forbidden)(allowed[i]);
    }
  }

  // ---------- Parsing ----------

  datatype AccessGroups = AccessGroups(users: seq<string>, groups: seq<string>)
  datatype OpenArgs = OpenArgs(allowedUsers: string, allowedGroups: string,
                               forbiddenUsers: string, forbiddenGroups: string)
  datatype AccessError = NobodyAllowed | AllowedAndForbidden(overlap: seq<string>)

  /**
   parseAccessRules: succeeds exactly when somebody is allowed and nobody is both allowed and
   forbidden. The error names every offending user or, if there is none, every offending group.
   */
  method ParseAccessRules(openArgs: OpenArgs) returns (rules: Result<(AccessGroups, AccessGroups), AccessError>)
    ensures var allowed := AccessGroups(Fields(openArgs.allowedUsers), Fields(openArgs.allowedGroups));
            var forbidden := AccessGroups(Fields(openArgs.forbiddenUsers), Fields(openArgs.forbiddenGroups));
            && (rules.Ok? <==> allowed != AccessGroups([], [])
                               && Disjoint(allowed.users, forbidden.users)
                               && Disjoint(allowed.groups, forbidden.groups))
            && (rules.Ok? ==> rules.value == (allowed, forbidden))
            && (rules == Err(NobodyAllowed) <==> allowed == AccessGroups([], []))
            && (rules.Err? && rules.error.AllowedAndForbidden? ==>
                  rules.error.overlap == if Disjoint(allowed.users, forbidden.users)
                                         then Filter(allowed.groups, In(forbidden.groups))
                                         else Filter(allowed.users, In(forbidden.users)))
  {
    var allowed := AccessGroups(Fields(openArgs.allowedUsers), Fields(openArgs.allowedGroups));
    var forbidden := AccessGroups(Fields(openArgs.forbiddenUsers), Fields(openArgs.forbiddenGroups));
    IntersectionIsOrdered(allowed.users, forbidden.users);
    IntersectionIsOrdered(allowed.groups, forbidden.groups);
    if |allowed.users| + |allowed.groups| == 0 {
      return Err(NobodyAllowed);
    }
    var overlap := Intersect(allowed.users, forbidden.users);
    if |overlap| != 0 {
      return Err(AllowedAndForbidden(overlap));
    }
    overlap := Intersect(allowed.groups, forbidden.groups);
    if |overlap| != 0 {
      return Err(AllowedAndForbidden(overlap));
    }
    return Ok((allowed, forbidden));
  }
}
