/** The new-group form: the list of member fields, and the checks made before
    the group is created. */
module CreateGroup {
  import opened Wrappers
  import Text

  // ---------------------------------------------------------------------------
  // The member fields
  // ---------------------------------------------------------------------------

  /** `members.filter((_, i) => i !== index)`. */
  function Removed(members: seq<string>, index: nat): (r: seq<string>)
    ensures index < |members| ==> r == members[..index] + members[index + 1..]
    ensures index >= |members| ==> r == members
  {
    if members == [] then []
    else if index == 0 then members[1..]
    else [members[0]] + Removed(members[1..], index - 1)
  }

  /** `removeMemberField(index)`: nothing happens while there are two fields or
      fewer. */
  function AfterRemove(members: seq<string>, index: nat): seq<string> {
    if |members| <= 2 then members else Removed(members, index)
  }

  /** What removing a field does to the number of fields. */
  lemma RemoveCount(members: seq<string>, index: nat)
    ensures |members| <= 2 ==> AfterRemove(members, index) == members
    ensures |members| > 2 && index < |members| ==> |AfterRemove(members, index)| == |members| - 1
    ensures |members| > 2 && index < |members| ==>
              forall k :: 0 <= k < |members| - 1 ==>
                AfterRemove(members, index)[k] == members[if k < index then k else k + 1]
  {
  }

  /** The edits the form offers on its member fields. */
  datatype FieldEdit = Change(index: nat, value: string) | AddField | RemoveField(index: nat)

  /** One edit: `handleMemberChange`, `addMemberField` or `removeMemberField`.
      The form only changes fields it shows, so a change beyond the last field
      is ignored. */
  function Edit(members: seq<string>, e: FieldEdit): (r: seq<string>)
    ensures e.Change? && e.index < |members| ==>
              |r| == |members| && r[e.index] == e.value &&
              forall k :: 0 <= k < |members| && k != e.index ==> r[k] == members[k]
    ensures e.AddField? ==> r == members + [""]
  {
    match e
    case Change(index, value) => if index < |members| then members[index := value] else members
    case AddField => members + [""]
    case RemoveField(index) => AfterRemove(members, index)
  }

  /** The fields after a run of edits. */
  function EditAll(members: seq<string>, edits: seq<FieldEdit>): seq<string>
    decreases |edits|
  {
    if edits == [] then members else EditAll(Edit(members, edits[0]), edits[1..])
  }

  /** The form starts with two blank fields, and no run of edits brings it
      below two. */
  lemma {:induction false} AlwaysTwoFields(members: seq<string>, edits: seq<FieldEdit>)
    requires |members| >= 2
    ensures |EditAll(members, edits)| >= 2
    decreases |edits|
  {
    if edits != [] {
      var next := Edit(members, edits[0]);
      assert |next| >= 2 by {
        if edits[0].RemoveField? {
          RemoveCount(members, edits[0].index);
        }
      }
      AlwaysTwoFields(next, edits[1..]);
    }
  }

  // ---------------------------------------------------------------------------
  // Submitting
  // ---------------------------------------------------------------------------

  /** Every field trimmed: `members.map(m => m.trim())`. */
  function Trimmed(members: seq<string>): (r: seq<string>)
    ensures |r| == |members|
  {
    seq(|members|, k requires 0 <= k < |members| => Text.Trim(members[k]))
  }

  /** Entry `k` is field `k`, trimmed. */
  lemma TrimmedAt(members: seq<string>, k: nat)
    requires k < |members|
    ensures Trimmed(members)[k] == Text.Trim(members[k])
  {
  }

  /** `.filter(m => m !== '')`. */
  function Filled(names: seq<string>): (r: seq<string>)
    ensures |r| <= |names|
  {
    if names == [] then []
    else (if names[0] != "" then [names[0]] else []) + Filled(names[1..])
  }

  lemma {:induction false} FilledMembers(names: seq<string>, x: string)
    ensures x in Filled(names) <==> x in names && x != ""
  {
    if names != [] {
      FilledMembers(names[1..], x);
      assert names == [names[0]] + names[1..];
    }
  }

  /** Filtering two lists joined is filtering each. */
  lemma {:induction false} FilledConcat(a: seq<string>, b: seq<string>)
    ensures Filled(a + b) == Filled(a) + Filled(b)
  {
    if a != [] {
      FilledConcat(a[1..], b);
      assert (a + b)[1..] == a[1..] + b;
    } else {
      assert a + b == b;
    }
  }

  lemma {:induction false} FilledAll(names: seq<string>)
    requires forall k :: 0 <= k < |names| ==> names[k] != ""
    ensures Filled(names) == names
  {
    if names != [] {
      FilledAll(names[1..]);
      assert names == [names[0]] + names[1..];
    }
  }

  /** The names the group is created with. */
  function ValidMembers(members: seq<string>): seq<string> {
    Filled(Trimmed(members))
  }

  /** A valid member is a trimmed, non-empty field: exactly the fields that are
      not blank, trimmed, in field order and once per field. */
  lemma ValidMembersMeaning(members: seq<string>, x: string)
    ensures x in ValidMembers(members) <==>
              exists k :: 0 <= k < |members| && !Text.IsBlank(members[k]) && x == Text.Trim(members[k])
    ensures |ValidMembers(members)| <= |members|
    ensures members != [] ==>
              var last := members[|members| - 1];
              ValidMembers(members) ==
                ValidMembers(members[..|members| - 1]) + (if Text.IsBlank(last) then [] else [Text.Trim(last)])
  {
    ValidMembersHas(members, x);
    if members != [] {
      ValidMembersLast(members);
    }
  }

  lemma ValidMembersHas(members: seq<string>, x: string)
    ensures x in ValidMembers(members) <==>
              exists k :: 0 <= k < |members| && !Text.IsBlank(members[k]) && x == Text.Trim(members[k])
  {
    var t := Trimmed(members);
    FilledMembers(t, x);
    if x in t && x != "" {
      var k :| 0 <= k < |t| && t[k] == x;
      assert x == Text.Trim(members[k]) && !Text.IsBlank(members[k]);
    }
    if exists k :: 0 <= k < |members| && !Text.IsBlank(members[k]) && x == Text.Trim(members[k]) {
      var k :| 0 <= k < |members| && !Text.IsBlank(members[k]) && x == Text.Trim(members[k]);
      assert t[k] == x && x != "";
    }
  }

  lemma ValidMembersLast(members: seq<string>)
    requires members != []
    ensures var last := members[|members| - 1];
            ValidMembers(members) ==
              ValidMembers(members[..|members| - 1]) + (if Text.IsBlank(last) then [] else [Text.Trim(last)])
  {
    var init, last := members[..|members| - 1], members[|members| - 1];
    assert members == init + [last];
    ValidMembersConcat(init, [last]);
    ValidMembersSingle(last);
  }

  /** The valid members of two field lists joined are those of each, in order:
      the non-blank fields, trimmed, in field order and each as often as it
      was entered. */
  lemma ValidMembersConcat(a: seq<string>, b: seq<string>)
    ensures ValidMembers(a + b) == ValidMembers(a) + ValidMembers(b)
  {
    TrimmedConcat(a, b);
    FilledConcat(Trimmed(a), Trimmed(b));
  }

  lemma TrimmedConcat(a: seq<string>, b: seq<string>)
    ensures Trimmed(a + b) == Trimmed(a) + Trimmed(b)
  {
    var joined, parts := Trimmed(a + b), Trimmed(a) + Trimmed(b);
    forall k | 0 <= k < |joined| ensures joined[k] == parts[k] {
      TrimmedAt(a + b, k);
      if k < |a| {
        TrimmedAt(a, k);
        assert (a + b)[k] == a[k];
      } else {
        TrimmedAt(b, k - |a|);
        assert (a + b)[k] == b[k - |a|];
      }
    }
  }

  /** One field gives its trimmed text, or nothing when it is blank. */
  lemma ValidMembersSingle(m: string)
    ensures ValidMembers([m]) == if Text.IsBlank(m) then [] else [Text.Trim(m)]
  {
    assert Trimmed([m]) == [Text.Trim(m)];
    assert [Text.Trim(m)][1..] == [];
  }

  /** With no blank field, nothing is dropped. */
  lemma AllFilledKept(members: seq<string>)
    requires forall k :: 0 <= k < |members| ==> !Text.IsBlank(members[k])
    ensures ValidMembers(members) == Trimmed(members)
    ensures |ValidMembers(members)| == |members|
  {
    FilledAll(Trimmed(members));
  }

  /** The keys of the error object: `name`, `general` and `member_<index>`. */
  datatype ErrorKey = NameKey | GeneralKey | MemberKey(index: nat)

  const NameMessage: string := "Il nome del gruppo è obbligatorio"
  const GeneralMessage: string := "Servono almeno 2 persone per un gruppo."
  const MemberMessage: string := "Inserisci un nome"

  /** The name and member-count errors. */
  function HeaderErrors(groupName: string, members: seq<string>): map<ErrorKey, string> {
    var named := if Text.IsBlank(groupName) then map[NameKey := NameMessage] else map[];
    if |ValidMembers(members)| < 2 then named[GeneralKey := GeneralMessage] else named
  }

  /** The per-field errors for the first `n` fields. */
  function FieldErrors(members: seq<string>, n: nat): map<ErrorKey, string>
    requires n <= |members|
  {
    map k | 0 <= k < n && Text.IsBlank(members[k]) :: MemberKey(k) := MemberMessage
  }

  lemma FieldErrorsStep(members: seq<string>, n: nat)
    requires n < |members|
    ensures FieldErrors(members, n + 1) ==
              if Text.IsBlank(members[n]) then FieldErrors(members, n)[MemberKey(n) := MemberMessage]
              else FieldErrors(members, n)
  {
    var before, after := FieldErrors(members, n), FieldErrors(members, n + 1);
    var expected := if Text.IsBlank(members[n]) then before[MemberKey(n) := MemberMessage] else before;
    forall key | key in after ensures key in expected && after[key] == expected[key] {
      assert key.MemberKey? && key.index <= n;
    }
    forall key | key in expected ensures key in after {
      assert key.MemberKey? && key.index <= n;
    }
    assert after.Keys == expected.Keys;
  }

  lemma UnionUpdate(a: map<ErrorKey, string>, b: map<ErrorKey, string>, key: ErrorKey, v: string)
    ensures (a + b)[key := v] == a + b[key := v]
  {
  }

  /** The object `handleSubmit` builds. */
  function SubmitErrors(groupName: string, members: seq<string>): map<ErrorKey, string> {
    HeaderErrors(groupName, members) + FieldErrors(members, |members|)
  }

  /** Which errors are reported, and with which message. */
  lemma SubmitErrorsMeaning(groupName: string, members: seq<string>, key: ErrorKey)
    ensures var errs := SubmitErrors(groupName, members);
            && (key == NameKey ==> (key in errs <==> Text.IsBlank(groupName)))
            && (key == GeneralKey ==> (key in errs <==> |ValidMembers(members)| < 2))
            && (key.MemberKey? ==> (key in errs <==> key.index < |members| && Text.IsBlank(members[key.index])))
            && (key in errs ==> errs[key] == match key
                                               case NameKey => NameMessage
                                               case GeneralKey => GeneralMessage
                                               case MemberKey(_) => MemberMessage)
  {
    var errs := SubmitErrors(groupName, members);
    if key.MemberKey? && key.index < |members| && Text.IsBlank(members[key.index]) {
      assert key in FieldErrors(members, |members|);
    }
  }

  /** The group is created only when nothing is wrong, and then every field is
      filled, so every field becomes a member and there are at least two. */
  lemma NoErrorsMeansAllFilled(groupName: string, members: seq<string>)
    requires SubmitErrors(groupName, members) == map[]
    ensures !Text.IsBlank(groupName)
    ensures |ValidMembers(members)| == |members| >= 2
    ensures ValidMembers(members) == Trimmed(members)
  {
    forall k | 0 <= k < |members| ensures !Text.IsBlank(members[k]) {
      SubmitErrorsMeaning(groupName, members, MemberKey(k));
    }
    SubmitErrorsMeaning(groupName, members, NameKey);
    SubmitErrorsMeaning(groupName, members, GeneralKey);
    AllFilledKept(members);
  }

  /** With two or more fields, too few members means some field is blank and is
      flagged on its own. */
  lemma TooFewMeansBlankField(groupName: string, members: seq<string>)
    requires |members| >= 2 && |ValidMembers(members)| < 2
    ensures exists k :: 0 <= k < |members| && MemberKey(k) in SubmitErrors(groupName, members)
  {
    if forall k :: 0 <= k < |members| ==> !Text.IsBlank(members[k]) {
      AllFilledKept(members);
      assert false;
    }
    var k :| 0 <= k < |members| && Text.IsBlank(members[k]);
    SubmitErrorsMeaning(groupName, members, MemberKey(k));
  }

  /** The error object `handleSubmit` builds, one check after the other and
      then one field after the other. */
  method CollectErrors(groupName: string, members: seq<string>) returns (newErrors: map<ErrorKey, string>)
    ensures newErrors == SubmitErrors(groupName, members)
  {
    newErrors := map[];
    if Text.Trim(groupName) == [] {
      newErrors := newErrors[NameKey := NameMessage];
    }
    var validMembers := ValidMembers(members);
    if |validMembers| < 2 {
      newErrors := newErrors[GeneralKey := GeneralMessage];
    }
    assert newErrors == HeaderErrors(groupName, members);
    assert FieldErrors(members, 0) == map[];
    for index := 0 to |members|
      invariant newErrors == HeaderErrors(groupName, members) + FieldErrors(members, index)
    {
      FieldErrorsStep(members, index);
      if Text.Trim(members[index]) == [] {
        UnionUpdate(HeaderErrors(groupName, members), FieldErrors(members, index), MemberKey(index), MemberMessage);
        newErrors := newErrors[MemberKey(index) := MemberMessage];
      }
    }
  }

  /** `Object.keys(errs).length > 0` holds exactly when there is an error. */
  lemma NoKeysNoErrors(errs: map<ErrorKey, string>)
    ensures |errs| > 0 <==> errs != map[]
  {
    if |errs| == 0 {
      assert |errs.Keys| == 0;
    } else {
      var key :| key in errs;
    }
  }

  /** The errors as the form holds them: a cleared error stays as `null`. */
  function Shown(errs: map<ErrorKey, string>): (r: map<ErrorKey, Option<string>>)
    ensures r.Keys == errs.Keys
    ensures forall key :: key in errs ==> r[key] == Some(errs[key])
  {
    map key | key in errs :: Some(errs[key])
  }

  /** JavaScript truthiness of `errors[key]`. */
  predicate Flagged(errors: map<ErrorKey, Option<string>>, key: ErrorKey) {
    key in errors && errors[key].Some? && errors[key].value != ""
  }

  /** The form's state. */
  class GroupForm {
    var groupName: string
    var members: seq<string>
    var errors: map<ErrorKey, Option<string>>
    var isSubmitting: bool

    /** The form keeps at least two member fields. */
    predicate Valid()
      reads this
    {
      |members| >= 2
    }

    /** An empty name, two blank fields, no errors. */
    constructor()
      ensures Valid()
      ensures groupName == "" && members == ["", ""] && errors == map[] && !isSubmitting
    {
      groupName, members, errors, isSubmitting := "", ["", ""], map[], false;
    }

    /** Typing in the name field clears a pending name error. */
    method HandleNameChange(value: string)
      modifies this
      ensures groupName == value && members == old(members) && isSubmitting == old(isSubmitting)
      ensures errors == if Flagged(old(errors), NameKey) then old(errors)[NameKey := None] else old(errors)
    {
      groupName := value;
      if Flagged(errors, NameKey) {
        errors := errors[NameKey := None];
      }
    }

    /** `handleMemberChange(index, value)`. */
    method HandleMemberChange(index: nat, value: string)
      requires Valid() && index < |members|
      modifies this
      ensures Valid()
      ensures members == Edit(old(members), Change(index, value))
      ensures groupName == old(groupName) && isSubmitting == old(isSubmitting)
      ensures errors == if Flagged(old(errors), MemberKey(index)) then old(errors)[MemberKey(index) := None] else old(errors)
    {
      members := members[index := value];
      if Flagged(errors, MemberKey(index)) {
        errors := errors[MemberKey(index) := None];
      }
    }

    /** `addMemberField`. */
    method AddMemberField()
      requires Valid()
      modifies this
      ensures Valid()
      ensures members == old(members) + [""]
      ensures groupName == old(groupName) && errors == old(errors) && isSubmitting == old(isSubmitting)
    {
      members := members + [""];
    }

    /** `removeMemberField(index)`. */
    method RemoveMemberField(index: nat)
      requires Valid()
      modifies this
      ensures Valid()
      ensures members == AfterRemove(old(members), index)
      ensures groupName == old(groupName) && errors == old(errors) && isSubmitting == old(isSubmitting)
    {
      if |members| <= 2 {
        return;
      }
      members := Removed(members, index);
    }

    /** `handleSubmit`: the name and members handed to `addGroup` when nothing
        is wrong; otherwise the errors are shown and nothing is created. */
    method HandleSubmit() returns (created: Option<(string, seq<string>)>)
      modifies this
      ensures groupName == old(groupName) && members == old(members)
      ensures SubmitErrors(groupName, members) == map[] ==>
                created == Some((groupName, ValidMembers(members))) && isSubmitting && errors == old(errors)
      ensures SubmitErrors(groupName, members) != map[] ==>
                created == None && errors == Shown(SubmitErrors(groupName, members)) &&
                isSubmitting == old(isSubmitting)
    {
      var name, fields := groupName, members;
      var newErrors := CollectErrors(name, fields);
      NoKeysNoErrors(newErrors);
      if |newErrors| > 0 {
        errors := Shown(newErrors);
        return None;
      }
      isSubmitting := true;
      created := Some((name, ValidMembers(fields)));
    }
  }
}
