/**
 * The part of an Angular `FormGroup` that error collection looks at: its
 * controls in declaration order, each with the entries of its `errors`
 * object in insertion order. Validation itself happens elsewhere; here the
 * errors are given.
 */
module Forms {

  /** One entry of a control's `errors` object; `message` is "" when the entry has none (such as Angular's own `required`). */
  datatype ErrorEntry = ErrorEntry(key: string, message: string)

  datatype Control = Control(name: string, errors: seq<ErrorEntry>)

  /** A control is invalid when its `errors` object is not null, that is, has an entry. */
  predicate ControlInvalid(c: Control) {
    c.errors != []
  }

  /** `form.invalid`: some control is invalid. */
  predicate FormInvalid(form: seq<Control>) {
    exists i :: 0 <= i < |form| && ControlInvalid(form[i])
  }

  /** The messages of a list of error entries, in order, skipping entries without one. */
  function EntryMessages(errors: seq<ErrorEntry>): (r: seq<string>)
    ensures |r| <= |errors|
    ensures forall i :: 0 <= i < |r| ==> r[i] != ""
  {
    if errors == [] then []
    else if errors[|errors| - 1].message == "" then EntryMessages(errors[..|errors| - 1])
    else EntryMessages(errors[..|errors| - 1]) + [errors[|errors| - 1].message]
  }

  /** The messages of all invalid controls, control by control. */
  function Messages(form: seq<Control>): (r: seq<string>)
    ensures forall i :: 0 <= i < |r| ==> r[i] != ""
  {
    if form == [] then []
    else Messages(form[..|form| - 1]) + EntryMessages(form[|form| - 1].errors)
  }

  lemma {:induction false} EntryMessagesAppend(a: seq<ErrorEntry>, b: seq<ErrorEntry>)
    ensures EntryMessages(a + b) == EntryMessages(a) + EntryMessages(b)
    decreases |b|
  {
    if b == [] {
      assert a + b == a;
    } else {
      assert (a + b)[..|a + b| - 1] == a + b[..|b| - 1];
      EntryMessagesAppend(a, b[..|b| - 1]);
    }
  }

  /** Messages are collected in control order: those of a form's first part come before those of the rest. */
  lemma {:induction false} MessagesAppend(a: seq<Control>, b: seq<Control>)
    ensures Messages(a + b) == Messages(a) + Messages(b)
    decreases |b|
  {
    if b == [] {
      assert a + b == a;
    } else {
      assert (a + b)[..|a + b| - 1] == a + b[..|b| - 1];
      MessagesAppend(a, b[..|b| - 1]);
    }
  }

  /** An entry with a message contributes exactly that message. */
  lemma EntryMessageKept(errors: seq<ErrorEntry>, i: nat)
    requires i < |errors| && errors[i].message != ""
    ensures errors[i].message in EntryMessages(errors)
  {
    assert errors == errors[..i] + [errors[i]] + errors[i + 1..];
    EntryMessagesAppend(errors[..i] + [errors[i]], errors[i + 1..]);
    EntryMessagesAppend(errors[..i], [errors[i]]);
    assert [errors[i]][..0] == [];
  }

  /** When every entry carries a message, a form without messages is exactly a form without invalid controls. */
  lemma {:induction false} MessagesEmptyIffValid(form: seq<Control>)
    requires forall i, j :: 0 <= i < |form| && 0 <= j < |form[i].errors| ==> form[i].errors[j].message != ""
    ensures Messages(form) == [] <==> !FormInvalid(form)
  {
    if form != [] {
      var init := form[..|form| - 1];
      var last := form[|form| - 1];
      MessagesEmptyIffValid(init);
      EntriesEmptyIffNone(last.errors);
      FormInvalidLast(form);
    }
  }

  /** A form is invalid exactly when its controls before the last are, or its last control is. */
  lemma FormInvalidLast(form: seq<Control>)
    requires form != []
    ensures FormInvalid(form) <==> FormInvalid(form[..|form| - 1]) || ControlInvalid(form[|form| - 1])
  {
    var init := form[..|form| - 1];
    if FormInvalid(init) {
      var i :| 0 <= i < |init| && ControlInvalid(init[i]);
      assert ControlInvalid(form[i]);
    }
    if FormInvalid(form) && !ControlInvalid(form[|form| - 1]) {
      var i :| 0 <= i < |form| && ControlInvalid(form[i]);
      assert ControlInvalid(init[i]);
    }
  }

  /** When every entry carries a message, a control contributes no message exactly when it has no entry. */
  lemma EntriesEmptyIffNone(errors: seq<ErrorEntry>)
    requires forall j :: 0 <= j < |errors| ==> errors[j].message != ""
    ensures EntryMessages(errors) == [] <==> errors == []
  {
    if errors != [] {
      EntryMessageKept(errors, 0);
    }
  }

  /**
   * The collection loop of `extractFormErrors` and `validateCreditCardForm`:
   * for an invalid form, each invalid control's entries are visited in order
   * and every message found is appended; a form that is not invalid gives none.
   */
  method CollectErrors(form: seq<Control>) returns (errors: seq<string>)
    ensures errors == (if FormInvalid(form) then Messages(form) else [])
  {
    errors := [];
    if !FormInvalid(form) {
      return;
    }
    for k := 0 to |form|
      invariant errors == Messages(form[..k])
    {
      assert form[..k + 1][..k] == form[..k];
      var control := form[k];
      if ControlInvalid(control) {
        for j := 0 to |control.errors|
          invariant errors == Messages(form[..k]) + EntryMessages(control.errors[..j])
        {
          assert control.errors[..j + 1][..j] == control.errors[..j];
          var entry := control.errors[j];
          if entry.message != "" {
            errors := errors + [entry.message];
          }
        }
        assert control.errors[..|control.errors|] == control.errors;
      }
    }
    assert form[..|form|] == form;
  }
}
