/** The edit-contract dialog: loading the form from the selected contract, the
    validation of a submit and the mutation it sends. The mutation's outcome is
    an input; the toasts, the mutation and the close request are recorded as effects. */
module EditContractDialog {
  import opened Common
  import CreateContractDialog

  /** The contract the dialog edits, as the page passes it. */
  datatype EditableContract = EditableContract(id: string, title: string, content: string, clientId: string, userId: string)

  /** What `editContract.mutateAsync` receives. */
  datatype ContractUpdate = ContractUpdate(id: string, userId: string, title: string, content: string, clientId: string)

  datatype Effect =
    | Toast(title: string, description: string, destructive: bool)
    | EditMutation(update: ContractUpdate)
    | Close

  /** The error a submit stops with, or none: a contract must be selected, then
      the fields filled. */
  function ValidationError(contract: Option<EditableContract>, title: string, content: string, clientId: string): (r: Option<string>)
    ensures contract.None? ==> r == Some("No contract selected")
    ensures contract.Some? && !CreateContractDialog.FieldsFilled(title, content, clientId) ==> r == Some("Please fill in all fields")
    ensures r.None? <==> contract.Some? && CreateContractDialog.FieldsFilled(title, content, clientId)
  {
    if contract.None? then Some("No contract selected")
    else if !CreateContractDialog.FieldsFilled(title, content, clientId) then Some("Please fill in all fields")
    else None
  }

  function SubmitEffects(contract: Option<EditableContract>, title: string, content: string, clientId: string,
                         mutationError: Option<string>): seq<Effect>
  {
    var err := ValidationError(contract, title, content, clientId);
    if err.Some? then [Toast("Error", err.value, true)]
    else
      var c := contract.value;
      var m := EditMutation(ContractUpdate(c.id, c.userId, Trim(title), Trim(content), clientId));
      if mutationError.Some? then [m, Toast("Error", "Failed to update contract. Please try again.", true)]
      else [m, Toast("Success", "Contract updated successfully", false), Close]
  }

  /** The mutation keeps the contract's id and owner whatever was typed, and sends
      the trimmed fields; without a valid submit nothing is sent. */
  lemma MutationTargetsSelectedContract(contract: Option<EditableContract>, title: string, content: string,
                                        clientId: string, mutationError: Option<string>)
    ensures var e := SubmitEffects(contract, title, content, clientId, mutationError);
      && (ValidationError(contract, title, content, clientId).Some? ==> forall k :: 0 <= k < |e| ==> !e[k].EditMutation?)
      && (forall k :: 0 <= k < |e| && e[k].EditMutation? ==>
            && k == 0 && contract.Some?
            && e[k].update.id == contract.value.id && e[k].update.userId == contract.value.userId
            && e[k].update.title == Trim(title) && e[k].update.content == Trim(content)
            && e[k].update.clientId == clientId)
      && (Close in e <==> ValidationError(contract, title, content, clientId).None? && mutationError.None?)
  {
    var e := SubmitEffects(contract, title, content, clientId, mutationError);
    var err := ValidationError(contract, title, content, clientId);
    if err.Some? {
      assert e == [Toast("Error", err.value, true)];
    } else {
      var c := contract.value;
      var m := EditMutation(ContractUpdate(c.id, c.userId, Trim(title), Trim(content), clientId));
      if mutationError.Some? {
        assert e == [m, Toast("Error", "Failed to update contract. Please try again.", true)];
      } else {
        assert e == [m, Toast("Success", "Contract updated successfully", false), Close];
      }
    }
  }

  /** Submitting a contract just loaded into the form, untouched, sends back its
      own fields when they were filled and free of padding. */
  lemma UntouchedSubmitKeepsFields(c: EditableContract)
    requires CreateContractDialog.FieldsFilled(c.title, c.content, c.clientId)
    requires Trim(c.title) == c.title && Trim(c.content) == c.content
    ensures SubmitEffects(Some(c), c.title, c.content, c.clientId, None)[0]
         == EditMutation(ContractUpdate(c.id, c.userId, c.title, c.content, c.clientId))
  {
  }

  /** `if (!contract) return null`. */
  predicate Renders(contract: Option<EditableContract>) {
    contract.Some?
  }

  class Dialog {
    var title: string
    var content: string
    var clientId: string
    var isSubmitting: bool
    /** The toasts, mutations and close requests so far, in order. */
    var effects: seq<Effect>

    constructor ()
      ensures title == "" && content == "" && clientId == "" && !isSubmitting && effects == []
    {
      title, content, clientId, isSubmitting, effects := "", "", "", false, [];
    }

    /** The effect run when `contract` changes: a selected contract fills the form. */
    method LoadContract(contract: Option<EditableContract>)
      modifies this
      ensures contract.Some? ==>
        title == contract.value.title && content == contract.value.content && clientId == contract.value.clientId
      ensures contract.None? ==> title == old(title) && content == old(content) && clientId == old(clientId)
      ensures isSubmitting == old(isSubmitting) && effects == old(effects)
    {
      if contract.Some? {
        title, content, clientId := contract.value.title, contract.value.content, contract.value.clientId;
      }
    }

    /** The inputs' change handlers. */
    method Edit(newTitle: string, newContent: string, newClientId: string)
      modifies this
      ensures title == newTitle && content == newContent && clientId == newClientId
      ensures isSubmitting == old(isSubmitting) && effects == old(effects)
    {
      title, content, clientId := newTitle, newContent, newClientId;
    }

    /** `handleSubmit`: the form keeps its fields in every outcome. */
    method HandleSubmit(contract: Option<EditableContract>, mutationError: Option<string>)
      modifies this
      ensures effects == old(effects) + SubmitEffects(contract, old(title), old(content), old(clientId), mutationError)
      ensures title == old(title) && content == old(content) && clientId == old(clientId)
      ensures isSubmitting == (if ValidationError(contract, old(title), old(content), old(clientId)).Some? then old(isSubmitting) else false)
    {
      var t, c := Trim(title), Trim(content);
      if contract.None? {
        effects := effects + [Toast("Error", "No contract selected", true)];
        return;
      }
      if t == "" || c == "" || clientId == "" {
        effects := effects + [Toast("Error", "Please fill in all fields", true)];
        return;
      }
      isSubmitting := true;
      var k := contract.value;
      effects := effects + [EditMutation(ContractUpdate(k.id, k.userId, t, c, clientId))];
      if mutationError.None? {
        effects := effects + [Toast("Success", "Contract updated successfully", false), Close];
      } else {
        effects := effects + [Toast("Error", "Failed to update contract. Please try again.", true)];
      }
      isSubmitting := false;
    }
  }
}
