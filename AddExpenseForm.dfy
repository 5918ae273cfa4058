/** The expense form: which members share an expense, and the checks made
    before the form hands its data to the store. */
module AddExpenseForm {
  import opened Wrappers
  import opened Ledger
  import Text

  // ---------------------------------------------------------------------------
  // Choosing the participants
  // ---------------------------------------------------------------------------

  /** `selection.filter(x => x !== m)`. */
  function Without(selection: seq<string>, m: string): (r: seq<string>)
    ensures |r| <= |selection|
  {
    if selection == [] then []
    else (if selection[0] != m then [selection[0]] else []) + Without(selection[1..], m)
  }

  /** The filter keeps exactly the other names, in order. */
  lemma {:induction false} WithoutMembers(selection: seq<string>, m: string, x: string)
    ensures x in Without(selection, m) <==> x in selection && x != m
  {
    if selection != [] {
      WithoutMembers(selection[1..], m, x);
      assert selection == [selection[0]] + selection[1..];
    }
  }

  /** Filtering two lists joined is filtering each: the other names stay in
      their order, each as often as it was listed. */
  lemma {:induction false} WithoutConcat(a: seq<string>, b: seq<string>, m: string)
    ensures Without(a + b, m) == Without(a, m) + Without(b, m)
  {
    if a != [] {
      WithoutConcat(a[1..], b, m);
      assert (a + b)[1..] == a[1..] + b;
    } else {
      assert a + b == b;
    }
  }

  /** A single name is kept exactly when it differs from the removed one. */
  lemma WithoutSingle(x: string, m: string)
    ensures Without([x], m) == if x != m then [x] else []
  {
    assert [x][1..] == [];
  }

  lemma {:induction false} WithoutAbsent(selection: seq<string>, m: string)
    requires m !in selection
    ensures Without(selection, m) == selection
  {
    if selection != [] {
      WithoutAbsent(selection[1..], m);
      assert selection == [selection[0]] + selection[1..];
    }
  }

  /** `toggleMember(member)`: a selected member is removed unless the selection
      has a single entry; an unselected member is appended. */
  function Toggled(selection: seq<string>, m: string): seq<string> {
    if m in selection then
      if |selection| > 1 then Without(selection, m) else selection
    else selection + [m]
  }

  /** Who is selected after a toggle: the toggled member flips, unless it was
      the only selected entry; everybody else stays as they were. */
  lemma ToggledMembers(selection: seq<string>, m: string, x: string)
    ensures x in Toggled(selection, m) <==>
              if x == m then m !in selection || |selection| <= 1 else x in selection
  {
    WithoutMembers(selection, m, x);
  }

  lemma {:induction false} WithoutDistinct(selection: seq<string>, m: string)
    requires Distinct(selection)
    ensures Distinct(Without(selection, m))
  {
    if selection != [] {
      var tail := selection[1..];
      assert Distinct(tail) by {
        forall p, q | 0 <= p < q < |tail| ensures tail[p] != tail[q] {
          assert tail[p] == selection[p + 1] && tail[q] == selection[q + 1];
        }
      }
      WithoutDistinct(tail, m);
      var rest := Without(tail, m);
      forall x | x in rest ensures x != selection[0] {
        WithoutMembers(tail, m, x);
        var k :| 0 <= k < |tail| && tail[k] == x;
        assert selection[k + 1] == x;
      }
      var r := Without(selection, m);
      if selection[0] != m {
        assert r == [selection[0]] + rest;
        forall p, q | 0 <= p < q < |r| ensures r[p] != r[q] {
          if p == 0 {
            assert r[q] == rest[q - 1] && rest[q - 1] in rest;
          } else {
            assert r[p] == rest[p - 1] && r[q] == rest[q - 1];
          }
        }
      } else {
        assert r == rest;
      }
    }
  }

  /** A selection without repeated names never becomes empty, and stays free of
      repeated names. */
  lemma ToggleKeepsSomeone(selection: seq<string>, m: string)
    requires selection != [] && Distinct(selection)
    ensures Toggled(selection, m) != []
    ensures Distinct(Toggled(selection, m))
  {
    if m in selection && |selection| > 1 {
      WithoutDistinct(selection, m);
      var k :| 0 <= k < |selection| && selection[k] != m;
      WithoutMembers(selection, m, selection[k]);
    }
  }

  /** The same holds after any number of clicks. */
  lemma {:induction false} TogglesKeepSomeone(selection: seq<string>, clicks: seq<string>)
    requires selection != [] && Distinct(selection)
    ensures ToggledAll(selection, clicks) != []
    decreases |clicks|
  {
    if clicks != [] {
      ToggleKeepsSomeone(selection, clicks[0]);
      TogglesKeepSomeone(Toggled(selection, clicks[0]), clicks[1..]);
    }
  }

  /** The selection after the members in `clicks` are toggled in turn. */
  function ToggledAll(selection: seq<string>, clicks: seq<string>): seq<string>
    decreases |clicks|
  {
    if clicks == [] then selection else ToggledAll(Toggled(selection, clicks[0]), clicks[1..])
  }

  /** The guard counts entries, not names: with a name listed twice, removing
      it empties the selection. */
  lemma RepeatedNameEmptiesSelection()
    ensures Toggled(["Mario", "Mario"], "Mario") == []
  {
    assert Toggled(["Mario", "Mario"], "Mario") == Without(["Mario", "Mario"], "Mario");
    assert ["Mario", "Mario"][1..] == ["Mario"];
    assert ["Mario"][1..] == [];
  }

  /** Toggling a member in and out again restores a non-empty selection. */
  lemma ToggleTwice(selection: seq<string>, m: string)
    requires selection != [] && m !in selection
    ensures Toggled(Toggled(selection, m), m) == selection
  {
    var s := selection + [m];
    assert m in s && |s| > 1;
    WithoutAfterAppend(selection, m);
  }

  lemma {:induction false} WithoutAfterAppend(selection: seq<string>, m: string)
    requires m !in selection
    ensures Without(selection + [m], m) == selection
  {
    if selection == [] {
      assert [m][1..] == [];
    } else {
      assert (selection + [m])[1..] == selection[1..] + [m];
      WithoutAfterAppend(selection[1..], m);
      assert selection == [selection[0]] + selection[1..];
    }
  }

  /** The prefilled selection when editing: the saved participants when the
      record has the field (even an empty list), else every member. */
  function PrefillSelection(saved: Option<seq<string>>, members: seq<string>): (r: seq<string>)
    ensures saved.None? ==> r == members
    ensures saved.Some? ==> r == saved.value
  {
    if saved.Some? then saved.value else members
  }

  // ---------------------------------------------------------------------------
  // Submitting
  // ---------------------------------------------------------------------------

  /** Why a submission is refused, in the order the checks are made. */
  datatype FormError = MissingFields | InvalidAmount | NoneInvolved

  /** The message shown for each refusal. */
  function Message(err: FormError): string {
    match err
    case MissingFields => "Compila descrizione e importo."
    case InvalidAmount => "Inserisci un importo valido."
    case NoneInvolved => "Seleziona almeno una persona coinvolta."
  }

  /** The checks of `handleSubmit`. `amount` is the text of the amount field
      and `parsed` is what `parseFloat` makes of it (`None` for `NaN`). */
  function Validate(description: string, amount: string, parsed: Option<real>, paidBy: Payer,
                    involved: seq<string>): (r: Result<ExpenseData, FormError>)
    ensures r.Ok? <==> !Text.IsBlank(description) && amount != "" && parsed.Some? && parsed.value > 0.0 && |involved| > 0
    ensures r.Ok? ==> r.value == ExpenseData(description, parsed.value, paidBy, involved)
    ensures r == Err(MissingFields) <==> Text.IsBlank(description) || amount == ""
    ensures r == Err(InvalidAmount) <==>
              !Text.IsBlank(description) && amount != "" && (parsed.None? || parsed.value <= 0.0)
    ensures r == Err(NoneInvolved) <==>
              !Text.IsBlank(description) && amount != "" && parsed.Some? && parsed.value > 0.0 && involved == []
  {
    if Text.Trim(description) == [] || amount == "" then Err(MissingFields)
    else if parsed.None? || parsed.value <= 0.0 then Err(InvalidAmount)
    else if |involved| == 0 then Err(NoneInvolved)
    else Ok(ExpenseData(description, parsed.value, paidBy, involved))
  }

  /** Submitted data always has a positive amount, someone to share it, and a
      description that is not blank; the description is passed on untrimmed. */
  lemma SubmittedData(description: string, amount: string, parsed: Option<real>, paidBy: Payer, involved: seq<string>)
    requires Validate(description, amount, parsed, paidBy, involved).Ok?
    ensures var d := Validate(description, amount, parsed, paidBy, involved).value;
            d.amount > 0.0 && |d.involvedMembers| > 0 && Text.Trim(d.description) != [] && d.description == description
  {
  }

  /** The form's state. */
  class ExpenseForm {
    var description: string
    var amount: string
    var paidBy: Payer
    var involvedMembers: seq<string>
    var error: string

    /** A blank form: the first member paid and everybody takes part. */
    constructor(members: seq<string>)
      requires |members| > 0
      ensures description == "" && amount == "" && error == ""
      ensures paidBy == Single(members[0]) && involvedMembers == members
    {
      description, amount, error := "", "", "";
      paidBy := Single(members[0]);
      involvedMembers := members;
    }

    /** The edit-mode prefill. `amountText` is the saved amount as text. */
    method Prefill(initial: Expense, amountText: string, members: seq<string>)
      modifies this
      ensures description == initial.description && amount == amountText && paidBy == initial.paidBy
      ensures involvedMembers == PrefillSelection(initial.involvedMembers, members)
      ensures error == old(error)
    {
      description := initial.description;
      amount := amountText;
      paidBy := initial.paidBy;
      involvedMembers := if initial.involvedMembers.Some? then initial.involvedMembers.value else members;
    }

    /** `toggleMember(member)`. */
    method ToggleMember(member: string)
      modifies this
      ensures involvedMembers == Toggled(old(involvedMembers), member)
      ensures description == old(description) && amount == old(amount)
      ensures paidBy == old(paidBy) && error == old(error)
    {
      if member in involvedMembers {
        if |involvedMembers| > 1 {
          involvedMembers := Without(involvedMembers, member);
        }
      } else {
        involvedMembers := involvedMembers + [member];
      }
    }

    /** `handleSubmit`: on success the data handed to `onSubmit`, otherwise the
        message of the first failed check; a successful submission leaves the
        message as it was. */
    method HandleSubmit(parsed: Option<real>) returns (submitted: Option<ExpenseData>)
      modifies this
      ensures var r := Validate(old(description), old(amount), parsed, old(paidBy), old(involvedMembers));
              && (r.Ok? ==> submitted == Some(r.value) && error == old(error))
              && (r.Err? ==> submitted == None && error == Message(r.error))
      ensures description == old(description) && amount == old(amount)
      ensures paidBy == old(paidBy) && involvedMembers == old(involvedMembers)
    {
      if Text.Trim(description) == [] || amount == "" {
        error := Message(MissingFields);
        return None;
      }
      if parsed.None? || parsed.value <= 0.0 {
        error := Message(InvalidAmount);
        return None;
      }
      if |involvedMembers| == 0 {
        error := Message(NoneInvolved);
        return None;
      }
      submitted := Some(ExpenseData(description, parsed.value, paidBy, involvedMembers));
    }
  }
}
