/** js/modules/collaboratormanager.js: collaborators are added (one at a time or from an
    imported list), edited and deleted. A non-blank registration already present ignoring case
    is refused, the check comparing the registration as typed while the stored one is trimmed;
    a collaborator who holds items on loan or owes an open debit cannot be deleted. */
module CollaboratorManager {
  import opened Common
  import opened Items
  import opened Store
  import opened Validator

  /** The form as read, with a missing role or registration as "". */
  datatype CollaboratorForm = CollaboratorForm(name: string, role: string, registration: string)

  function NewCollaborator(id: string, f: CollaboratorForm, now: int): Collaborator
  {
    Collaborator(id, Trim(f.name), Trim(f.role), Trim(f.registration), now)
  }

  /** No two collaborators share a non-blank registration, ignoring case. */
  predicate RegistrationsUnique(cs: seq<Collaborator>)
  {
    forall i, j :: 0 <= i < |cs| && 0 <= j < |cs| && i != j && cs[i].registration != "" ==>
      !SameIgnoringCase(cs[i].registration, cs[j].registration)
  }

  predicate IdsUnique(cs: seq<Collaborator>)
  {
    forall i, j :: 0 <= i < |cs| && 0 <= j < |cs| && i != j ==> cs[i].id != cs[j].id
  }

  /** Some collaborator holds a non-blank registration equal to text, ignoring case. */
  predicate Taken(cs: seq<Collaborator>, text: string)
  {
    exists k :: 0 <= k < |cs| && cs[k].registration != "" && SameIgnoringCase(cs[k].registration, text)
  }

  /** A registration and a text of different lengths never match. */
  lemma LengthsDiffer(a: string, b: string)
    requires |a| != |b|
    ensures !SameIgnoringCase(a, b)
  {
    assert |ToLower(a)| != |ToLower(b)|;
  }

  /** Appending a collaborator keeps the registrations unique exactly when its registration
      is blank or not taken. */
  lemma AppendKeepsUnique(cs: seq<Collaborator>, c: Collaborator)
    requires RegistrationsUnique(cs)
    ensures RegistrationsUnique(cs + [c]) <==> c.registration == "" || !Taken(cs, c.registration)
  {
    var cs' := cs + [c];
    if c.registration == "" {
      forall i | 0 <= i < |cs| && cs[i].registration != ""
        ensures !SameIgnoringCase(cs'[i].registration, cs'[|cs|].registration)
      {
        LengthsDiffer(cs[i].registration, "");
      }
    } else if Taken(cs, c.registration) {
      var k :| 0 <= k < |cs| && cs[k].registration != "" && SameIgnoringCase(cs[k].registration, c.registration);
      assert cs'[k] == cs[k] && cs'[|cs|] == c;
    } else {
      assert forall k :: 0 <= k < |cs| ==> cs'[k] == cs[k];
    }
  }

  // ---- addCollaborator ----

  datatype AddResult = Invalid(errors: seq<FieldError>) | Duplicate | Added(collaborator: Collaborator)

  /** The checks of addCollaborator as written: the stored registration is compared with the
      registration as typed, untrimmed. */
  predicate AddAllowedAsWritten(cs: seq<Collaborator>, f: CollaboratorForm)
  {
    !IsBlank(f.name) && (IsBlank(f.registration) || !Taken(cs, f.registration))
  }

  /** The checks of addCollaborator, the registration compared as it will be stored. */
  predicate AddAllowed(cs: seq<Collaborator>, f: CollaboratorForm)
  {
    !IsBlank(f.name) && (IsBlank(f.registration) || !Taken(cs, Trim(f.registration)))
  }

  /** A collaborator added past the checks keeps the registrations unique. */
  lemma AddKeepsRegistrationsUnique(cs: seq<Collaborator>, f: CollaboratorForm, id: string, now: int)
    requires RegistrationsUnique(cs) && AddAllowed(cs, f)
    ensures RegistrationsUnique(cs + [NewCollaborator(id, f, now)])
  {
    TrimEmptyIffBlank(f.registration);
    AppendKeepsUnique(cs, NewCollaborator(id, f, now));
  }

  lemma TrimRegistrationSample()
    ensures Trim(" ABC") == "ABC"
    ensures SameIgnoringCase("abc", "ABC") && !SameIgnoringCase("abc", " ABC")
  {
    assert TrimStart(" ABC") == "ABC" by {
      assert " ABC"[1..] == "ABC";
    }
    assert ToLower("ABC") == "abc";
    LengthsDiffer("abc", " ABC");
  }

  /** The checks as written let " ABC" through when "abc" is stored, and the collaborator
      stored then has the registration "ABC", a second "abc" ignoring case. */
  lemma AddAsWrittenDuplicates()
    ensures var cs := [Collaborator("a", "Ana", "", "abc", 0)];
      var f := CollaboratorForm("Bia", "", " ABC");
      AddAllowedAsWritten(cs, f) && RegistrationsUnique(cs) &&
      !RegistrationsUnique(cs + [NewCollaborator("b", f, 0)])
  {
    var cs := [Collaborator("a", "Ana", "", "abc", 0)];
    var f := CollaboratorForm("Bia", "", " ABC");
    TrimRegistrationSample();
    TrimEmptyIffBlank(f.name);
    TrimEmptyIffBlank(f.registration);
    assert !IsBlank(f.name) by {
      assert !IsWhitespace(f.name[0]);
    }
    var c := NewCollaborator("b", f, 0);
    assert c.registration == "ABC";
    assert Taken(cs, c.registration) by {
      assert cs[0].registration != "" && SameIgnoringCase(cs[0].registration, c.registration);
    }
    AppendKeepsUnique(cs, c);
  }

  method AddCollaborator(w: Warehouse, f: CollaboratorForm, now: int) returns (r: AddResult)
    modifies w`collaborators, w`nextId
    ensures r.Invalid? <==> IsBlank(f.name)
    ensures r.Invalid? ==> r.errors == ValidateCollaboratorDetails(f.name)
    ensures r.Duplicate? <==> !IsBlank(f.name) && !AddAllowedAsWritten(old(w.collaborators), f)
    ensures r.Added? ==> (r.collaborator == NewCollaborator(MintId(old(w.nextId)), f, now) &&
      w.collaborators == old(w.collaborators) + [r.collaborator] && w.nextId == old(w.nextId) + 1)
    ensures !r.Added? ==> w.collaborators == old(w.collaborators) && w.nextId == old(w.nextId)
    ensures RegistrationsUnique(old(w.collaborators)) && Trim(f.registration) == f.registration ==>
              RegistrationsUnique(w.collaborators)
  {
    var errors := ValidateCollaboratorDetails(f.name);
    if errors != [] {
      return Invalid(errors);
    }
    if !IsBlank(f.registration) && Taken(w.collaborators, f.registration) {
      return Duplicate;
    }
    var id := w.FreshId();
    var c := NewCollaborator(id, f, now);
    if RegistrationsUnique(w.collaborators) && Trim(f.registration) == f.registration {
      AddKeepsRegistrationsUnique(w.collaborators, f, id, now);
    }
    w.collaborators := w.collaborators + [c];
    r := Added(c);
  }

  // ---- addMultipleCollaborators ----

  /** The import as it runs: the list, the registrations seen (lower case), the id counter
      and the counts. */
  datatype Roster = Roster(cs: seq<Collaborator>, seen: set<string>, next: nat, added: nat, ignored: nat)

  /** Every stored registration is among those seen. */
  predicate Covers(r: Roster)
  {
    forall k :: 0 <= k < |r.cs| ==> ToLower(r.cs[k].registration) in r.seen
  }

  /** new Set(collaborators.map(c => c.registration.toLowerCase())): exactly the stored
      registrations, lower-cased. */
  function RegistrationSet(cs: seq<Collaborator>): (s: set<string>)
    ensures forall k :: 0 <= k < |cs| ==> ToLower(cs[k].registration) in s
    ensures forall x :: x in s ==> exists k :: 0 <= k < |cs| && ToLower(cs[k].registration) == x
  {
    if cs == [] then {} else {ToLower(cs[0].registration)} + RegistrationSet(cs[1..])
  }

  /** The import skips a line as written: a blank name or registration, or the registration
      as typed already seen. */
  predicate RosterSkipsAsWritten(seen: set<string>, f: CollaboratorForm)
  {
    IsBlank(f.name) || IsBlank(f.registration) || ToLower(f.registration) in seen
  }

  /** The import skips a line with a blank name or registration, or whose registration, as it
      would be stored, is already seen. */
  predicate RosterSkips(seen: set<string>, f: CollaboratorForm)
  {
    IsBlank(f.name) || IsBlank(f.registration) || ToLower(Trim(f.registration)) in seen
  }

  function RosterStep(r: Roster, f: CollaboratorForm, now: int): (s: Roster)
    ensures s.added + s.ignored == r.added + r.ignored + 1
    ensures |s.cs| - |r.cs| == s.added - r.added && s.next - r.next == s.added - r.added
    ensures s.added >= r.added && (s.added == r.added ==> s.cs == r.cs && s.next == r.next)
    ensures s.added > r.added <==> !RosterSkipsAsWritten(r.seen, f)
  {
    if RosterSkipsAsWritten(r.seen, f) then r.(ignored := r.ignored + 1)
    else
      var c := NewCollaborator(MintId(r.next), f, now);
      r.(cs := r.cs + [c], seen := r.seen + {ToLower(c.registration)}, next := r.next + 1, added := r.added + 1)
  }

  /** The skip as intended keeps the list unique: a line it lets through has a registration
      that, trimmed as it is stored, no stored one has. */
  lemma IntendedSkipKeepsUnique(r: Roster, f: CollaboratorForm, now: int)
    requires RegistrationsUnique(r.cs) && Covers(r) && !RosterSkips(r.seen, f)
    ensures RegistrationsUnique(r.cs + [NewCollaborator(MintId(r.next), f, now)])
  {
    var c := NewCollaborator(MintId(r.next), f, now);
    TrimEmptyIffBlank(f.registration);
    AppendKeepsUnique(r.cs, c);
  }

  /** A step keeps every stored registration seen, and keeps the registrations unique when
      the line's registration has no surrounding whitespace. */
  lemma RosterStepKeeps(r: Roster, f: CollaboratorForm, now: int)
    requires Covers(r)
    ensures Covers(RosterStep(r, f, now))
    ensures RegistrationsUnique(r.cs) && Trim(f.registration) == f.registration ==>
              RegistrationsUnique(RosterStep(r, f, now).cs)
  {
    if !RosterSkipsAsWritten(r.seen, f) {
      var s := RosterStep(r, f, now);
      assert forall k :: 0 <= k < |r.cs| ==> s.cs[k] == r.cs[k];
      if RegistrationsUnique(r.cs) && Trim(f.registration) == f.registration {
        IntendedSkipKeepsUnique(r, f, now);
      }
    }
  }

  function RosterFrom(r: Roster, fs: seq<CollaboratorForm>, i: nat, now: int): (s: Roster)
    requires i <= |fs|
    ensures s.added + s.ignored == r.added + r.ignored + |fs| - i
    ensures |s.cs| - |r.cs| == s.added - r.added && s.next - r.next == s.added - r.added
    ensures s.added >= r.added && (s.added == r.added ==> s.cs == r.cs && s.next == r.next)
    decreases |fs| - i
  {
    if i == |fs| then r else RosterFrom(RosterStep(r, fs[i], now), fs, i + 1, now)
  }

  /** Every registration of these lines is as it will be stored, without surrounding
      whitespace. */
  predicate TrimmedFrom(fs: seq<CollaboratorForm>, i: nat)
  {
    forall k :: i <= k < |fs| ==> Trim(fs[k].registration) == fs[k].registration
  }

  lemma {:induction false} RosterFromKeeps(r: Roster, fs: seq<CollaboratorForm>, i: nat, now: int)
    requires i <= |fs| && Covers(r)
    ensures Covers(RosterFrom(r, fs, i, now))
    ensures RegistrationsUnique(r.cs) && TrimmedFrom(fs, i) ==> RegistrationsUnique(RosterFrom(r, fs, i, now).cs)
    decreases |fs| - i
  {
    if i < |fs| {
      RosterStepKeeps(r, fs[i], now);
      RosterFromKeeps(RosterStep(r, fs[i], now), fs, i + 1, now);
    }
  }

  /** addMultipleCollaborators on a list and an id counter. */
  function Import(cs: seq<Collaborator>, next: nat, fs: seq<CollaboratorForm>, now: int): Roster
  {
    RosterFrom(Roster(cs, RegistrationSet(cs), next, 0, 0), fs, 0, now)
  }

  /** Every line is added or ignored, and an import into a list with unique registrations
      leaves them unique when no line's registration carries surrounding whitespace. */
  lemma ImportSummary(cs: seq<Collaborator>, next: nat, fs: seq<CollaboratorForm>, now: int)
    ensures var r := Import(cs, next, fs, now);
      r.added + r.ignored == |fs| && |r.cs| == |cs| + r.added && r.next == next + r.added
    ensures RegistrationsUnique(cs) && TrimmedFrom(fs, 0) ==> RegistrationsUnique(Import(cs, next, fs, now).cs)
  {
    RosterFromKeeps(Roster(cs, RegistrationSet(cs), next, 0, 0), fs, 0, now);
  }

  /** The duplicate check as written lets " abc" through when "ABC" is stored, and the list then holds
      "ABC" and "abc". */
  lemma ImportAsWrittenDuplicates()
    ensures var cs := [Collaborator("a", "Ana", "", "ABC", 0)];
      var f := CollaboratorForm("Bia", "", " abc");
      !RosterSkipsAsWritten(RegistrationSet(cs), f) && RegistrationsUnique(cs) &&
      !RegistrationsUnique(cs + [NewCollaborator("b", f, 0)])
  {
    var cs := [Collaborator("a", "Ana", "", "ABC", 0)];
    var f := CollaboratorForm("Bia", "", " abc");
    assert Trim(" abc") == "abc" by {
      assert TrimStart(" abc") == "abc" by {
        assert " abc"[1..] == "abc";
      }
    }
    assert ToLower("ABC") == "abc";
    assert RegistrationSet(cs) == {"abc"};
    assert |ToLower(" abc")| == 4;
    assert !IsBlank(f.name) by {
      assert !IsWhitespace(f.name[0]);
    }
    assert !IsBlank(f.registration) by {
      assert !IsWhitespace(f.registration[1]);
    }
    var c := NewCollaborator("b", f, 0);
    assert Taken(cs, c.registration) by {
      assert SameIgnoringCase(cs[0].registration, c.registration);
    }
    AppendKeepsUnique(cs, c);
  }

  /** One line of the forEach: skip it, or append a new collaborator and remember its
      registration. */
  method ImportStepOn(cs: seq<Collaborator>, seen: set<string>, next: nat, added: nat, ignored: nat,
                      f: CollaboratorForm, now: int)
    returns (cs': seq<Collaborator>, seen': set<string>, next': nat, added': nat, ignored': nat)
    ensures Roster(cs', seen', next', added', ignored') == RosterStep(Roster(cs, seen, next, added, ignored), f, now)
  {
    cs', seen', next', added', ignored' := cs, seen, next, added, ignored;
    if RosterSkipsAsWritten(seen, f) {
      ignored' := ignored + 1;
    } else {
      var c := NewCollaborator(MintId(next), f, now);
      cs' := cs + [c];
      seen' := seen + {ToLower(c.registration)};
      next' := next + 1;
      added' := added + 1;
    }
  }

  /** The forEach of addMultipleCollaborators over the list read from storage. */
  method ImportOn(cs: seq<Collaborator>, next: nat, fs: seq<CollaboratorForm>, now: int) returns (r: Roster)
    ensures r == Import(cs, next, fs, now)
  {
    var collaborators, seen, counter, added, ignored := cs, RegistrationSet(cs), next, 0, 0;
    var i := 0;
    while i < |fs|
      invariant 0 <= i <= |fs|
      invariant RosterFrom(Roster(collaborators, seen, counter, added, ignored), fs, i, now) == Import(cs, next, fs, now)
    {
      collaborators, seen, counter, added, ignored :=
        ImportStepOn(collaborators, seen, counter, added, ignored, fs[i], now);
      i := i + 1;
    }
    r := Roster(collaborators, seen, counter, added, ignored);
  }

  /** The list is saved only when something was added. */
  method AddMultipleCollaborators(w: Warehouse, fs: seq<CollaboratorForm>, now: int) returns (added: nat, ignored: nat)
    modifies w`collaborators, w`nextId
    ensures var r := Import(old(w.collaborators), old(w.nextId), fs, now);
      w.collaborators == r.cs && w.nextId == r.next && added == r.added && ignored == r.ignored
  {
    var r := ImportOn(w.collaborators, w.nextId, fs, now);
    if r.added > 0 {
      w.collaborators, w.nextId := r.cs, r.next;
    }
    added, ignored := r.added, r.ignored;
  }

  // ---- getCollaboratorById ----

  function CollaboratorById(cs: seq<Collaborator>, id: string): (r: Option<Collaborator>)
    ensures r.Some? ==> r.value in cs && r.value.id == id
    ensures r.None? <==> forall k :: 0 <= k < |cs| ==> cs[k].id != id
  {
    match CollaboratorIndex(cs, id)
    case Some(k) => Some(cs[k])
    case None => None
  }

  // ---- updateCollaborator ----

  datatype UpdateResult = UpdateInvalid(errors: seq<FieldError>) | NotFound | UpdateDuplicate | Updated

  /** Another collaborator's registration equals text, ignoring case. */
  predicate TakenByOther(cs: seq<Collaborator>, id: string, text: string)
  {
    exists k :: 0 <= k < |cs| && cs[k].id != id && SameIgnoringCase(cs[k].registration, text)
  }

  /** The duplicate check of updateCollaborator as written, on the registration as typed. */
  predicate UpdateAllowedAsWritten(cs: seq<Collaborator>, id: string, f: CollaboratorForm)
  {
    IsBlank(f.registration) || !TakenByOther(cs, id, f.registration)
  }

  /** The duplicate check of updateCollaborator, on the registration as it will be stored. */
  predicate UpdateAllowed(cs: seq<Collaborator>, id: string, f: CollaboratorForm)
  {
    IsBlank(f.registration) || !TakenByOther(cs, id, Trim(f.registration))
  }

  /** The edited record: name, role and registration from the form, trimmed; the id and the
      creation time kept. */
  function Edited(c: Collaborator, f: CollaboratorForm): (e: Collaborator)
    ensures e.id == c.id && e.createdAt == c.createdAt
  {
    c.(name := Trim(f.name), role := Trim(f.role), registration := Trim(f.registration))
  }

  /** Editing a collaborator past the duplicate check keeps the registrations unique. */
  lemma UpdateKeepsRegistrationsUnique(cs: seq<Collaborator>, p: nat, f: CollaboratorForm)
    requires p < |cs| && RegistrationsUnique(cs) && IdsUnique(cs) && UpdateAllowed(cs, cs[p].id, f)
    ensures RegistrationsUnique(cs[p := Edited(cs[p], f)])
  {
    var e := Edited(cs[p], f);
    var cs' := cs[p := e];
    TrimEmptyIffBlank(f.registration);
    forall i, j | 0 <= i < |cs'| && 0 <= j < |cs'| && i != j && cs'[i].registration != ""
      ensures !SameIgnoringCase(cs'[i].registration, cs'[j].registration)
    {
      if i == p {
        assert cs[j].id != cs[p].id;
        SameIgnoringCaseSymmetric(cs[j].registration, e.registration);
      } else if j == p {
        if e.registration == "" {
          LengthsDiffer(cs[i].registration, "");
        } else {
          assert cs[i].id != cs[p].id;
        }
      }
    }
  }

  lemma SameIgnoringCaseSymmetric(a: string, b: string)
    ensures SameIgnoringCase(a, b) <==> SameIgnoringCase(b, a)
  {
  }

  /** The duplicate check as written lets " abc" through when another collaborator has "ABC", and the
      edited list then holds "ABC" and "abc". */
  lemma UpdateAsWrittenDuplicates()
    ensures var cs := [Collaborator("a", "Ana", "", "ABC", 0), Collaborator("b", "Bia", "", "", 0)];
      var f := CollaboratorForm("Bia", "", " abc");
      UpdateAllowedAsWritten(cs, "b", f) && RegistrationsUnique(cs) &&
      !RegistrationsUnique(cs[1 := Edited(cs[1], f)])
  {
    var cs := [Collaborator("a", "Ana", "", "ABC", 0), Collaborator("b", "Bia", "", "", 0)];
    var f := CollaboratorForm("Bia", "", " abc");
    assert Trim(" abc") == "abc" by {
      assert TrimStart(" abc") == "abc" by {
        assert " abc"[1..] == "abc";
      }
    }
    assert ToLower("ABC") == "abc";
    LengthsDiffer("ABC", " abc");
    LengthsDiffer("", " abc");
    LengthsDiffer("ABC", "");
    var cs' := cs[1 := Edited(cs[1], f)];
    assert cs'[0].registration == "ABC" && cs'[1].registration == "abc";
    assert SameIgnoringCase(cs'[0].registration, cs'[1].registration);
  }

  method UpdateCollaborator(w: Warehouse, id: string, f: CollaboratorForm) returns (r: UpdateResult)
    modifies w`collaborators
    ensures r.UpdateInvalid? <==> IsBlank(f.name)
    ensures r.UpdateInvalid? ==> r.errors == ValidateCollaboratorDetails(f.name)
    ensures r.NotFound? <==> !IsBlank(f.name) && CollaboratorIndex(old(w.collaborators), id).None?
    ensures r.UpdateDuplicate? <==> !IsBlank(f.name) && CollaboratorIndex(old(w.collaborators), id).Some? &&
                                    !UpdateAllowedAsWritten(old(w.collaborators), id, f)
    ensures r.Updated? ==> var p := CollaboratorIndex(old(w.collaborators), id).value;
      w.collaborators == old(w.collaborators)[p := Edited(old(w.collaborators)[p], f)]
    ensures !r.Updated? ==> w.collaborators == old(w.collaborators)
    ensures (RegistrationsUnique(old(w.collaborators)) && IdsUnique(old(w.collaborators)) &&
             Trim(f.registration) == f.registration) ==> RegistrationsUnique(w.collaborators)
  {
    var errors := ValidateCollaboratorDetails(f.name);
    if errors != [] {
      return UpdateInvalid(errors);
    }
    var index := CollaboratorIndex(w.collaborators, id);
    if index.None? {
      return NotFound;
    }
    if !IsBlank(f.registration) && TakenByOther(w.collaborators, id, f.registration) {
      return UpdateDuplicate;
    }
    var p := index.value;
    if RegistrationsUnique(w.collaborators) && IdsUnique(w.collaborators) && Trim(f.registration) == f.registration {
      UpdateKeepsRegistrationsUnique(w.collaborators, p, f);
    }
    w.collaborators := w.collaborators[p := Edited(w.collaborators[p], f)];
    r := Updated;
  }

  // ---- deleteCollaborator ----

  /** Some item has an allocation to the collaborator. */
  predicate HasLoans(items: seq<Item>, id: string)
  {
    exists i, k :: 0 <= i < |items| && 0 <= k < |items[i].allocations| && items[i].allocations[k].collaboratorId == id
  }

  /** The collaborator owes a debit not yet settled. */
  predicate HasOpenDebits(debits: seq<Debit>, id: string)
  {
    exists k :: 0 <= k < |debits| && debits[k].collaboratorId == id && !debits[k].isSettled
  }

  predicate DeleteAllowed(cs: seq<Collaborator>, items: seq<Item>, debits: seq<Debit>, id: string)
  {
    CollaboratorIndex(cs, id).Some? && !HasLoans(items, id) && !HasOpenDebits(debits, id)
  }

  function Without(cs: seq<Collaborator>, id: string): (r: seq<Collaborator>)
  {
    Filter(cs, (c: Collaborator) => c.id != id)
  }

  /** Deleting removes exactly the collaborators with that id and keeps the others. */
  lemma WithoutRemovesExactly(cs: seq<Collaborator>, id: string)
    ensures forall c :: c in Without(cs, id) <==> c in cs && c.id != id
    ensures |Without(cs, id)| < |cs| <==> CollaboratorIndex(cs, id).Some?
  {
    var p := (c: Collaborator) => c.id != id;
    forall c | c in cs && c.id != id ensures c in Without(cs, id) {
      var k :| 0 <= k < |cs| && cs[k] == c;
    }
    FilterShorter(cs, p);
  }

  /** A filter drops an element exactly when some element fails the test. */
  lemma {:induction false} FilterShorter<T>(s: seq<T>, p: T -> bool)
    ensures |Filter(s, p)| < |s| <==> exists k :: 0 <= k < |s| && !p(s[k])
  {
    if s != [] {
      FilterShorter(s[1..], p);
      if !p(s[0]) {
        assert !p(s[0]);
      } else if exists k :: 0 <= k < |s[1..]| && !p(s[1..][k]) {
        var k :| 0 <= k < |s[1..]| && !p(s[1..][k]);
        assert !p(s[k + 1]);
      } else {
        forall k | 0 <= k < |s| ensures p(s[k]) {
          if k > 0 {
            assert s[k] == s[1..][k - 1];
          }
        }
      }
    }
  }

  method DeleteCollaborator(w: Warehouse, id: string) returns (ok: bool)
    modifies w`collaborators
    ensures ok <==> DeleteAllowed(old(w.collaborators), w.items, w.debits, id)
    ensures w.collaborators == if ok then Without(old(w.collaborators), id) else old(w.collaborators)
  {
    if CollaboratorIndex(w.collaborators, id).None? {
      return false;
    }
    if HasLoans(w.items, id) {
      return false;
    }
    if HasOpenDebits(w.debits, id) {
      return false;
    }
    w.collaborators := Without(w.collaborators, id);
    ok := true;
  }
}
