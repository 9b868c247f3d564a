/** The create-contract dialog: its four form fields, the validation of a
    submit, the mutation it sends and the reset after success. The mutation's
    outcome is an input; the toasts, the mutation and the close request are
    recorded as effects. */
module CreateContractDialog {
  import opened Common

  /** What `createContract.mutateAsync` receives. */
  datatype ContractInput = ContractInput(userId: string, clientId: string, title: string, content: string)

  datatype Effect =
    | Toast(title: string, description: string, destructive: bool)
    | CreateMutation(input: ContractInput)
    | Close

  /** `title.trim() && content.trim() && clientId`: the check both contract dialogs make. */
  predicate FieldsFilled(title: string, content: string, clientId: string) {
    Trim(title) != "" && Trim(content) != "" && clientId != ""
  }

  /** A field of only whitespace is as good as an empty one. */
  lemma BlankFieldsRefused(title: string, content: string, clientId: string)
    ensures FieldsFilled(title, content, clientId) <==>
      !AllWhitespace(title) && !AllWhitespace(content) && clientId != ""
  {
    TrimEmptyIffAllWhitespace(title);
    TrimEmptyIffAllWhitespace(content);
  }

  /** The error a submit stops with, or none: signing in is checked before the fields. */
  function ValidationError(userId: Option<string>, title: string, content: string, clientId: string): (r: Option<string>)
    ensures !Truthy(userId) ==> r == Some("User not authenticated")
    ensures Truthy(userId) && !FieldsFilled(title, content, clientId) ==> r == Some("Please fill in all fields")
    ensures r.None? <==> Truthy(userId) && FieldsFilled(title, content, clientId)
  {
    if !Truthy(userId) then Some("User not authenticated")
    else if !FieldsFilled(title, content, clientId) then Some("Please fill in all fields")
    else None
  }

  /** The effects of one submit; `mutationError` is the mutation's failure, if any. */
  function SubmitEffects(userId: Option<string>, title: string, content: string, clientId: string,
                         mutationError: Option<string>): seq<Effect>
  {
    var err := ValidationError(userId, title, content, clientId);
    if err.Some? then [Toast("Error", err.value, true)]
    else
      var m := CreateMutation(ContractInput(userId.value, clientId, Trim(title), Trim(content)));
      if mutationError.Some? then [m, Toast("Error", "Failed to create contract. Please try again.", true)]
      else [m, Toast("Success", "Contract created successfully", false), Close]
  }

  /** A refused submit sends no mutation; an accepted one sends exactly one, with
      the trimmed title and content (never empty, never padded), the raw client id
      and the user's id. */
  lemma MutationOnlyWhenValid(userId: Option<string>, title: string, content: string, clientId: string,
                              mutationError: Option<string>)
    ensures var e := SubmitEffects(userId, title, content, clientId, mutationError);
      && (ValidationError(userId, title, content, clientId).Some? ==> forall k :: 0 <= k < |e| ==> !e[k].CreateMutation?)
      && (ValidationError(userId, title, content, clientId).None? ==>
            && e[0] == CreateMutation(ContractInput(userId.value, clientId, Trim(title), Trim(content)))
            && e[0].input.title != "" && !IsWhitespace(e[0].input.title[0])
            && !IsWhitespace(e[0].input.title[|e[0].input.title| - 1])
            && e[0].input.content != ""
            && (forall k :: 1 <= k < |e| ==> !e[k].CreateMutation?))
  {
  }

  /** The dialog closes only after a mutation that succeeded. */
  lemma ClosesOnlyOnSuccess(userId: Option<string>, title: string, content: string, clientId: string,
                            mutationError: Option<string>)
    ensures Close in SubmitEffects(userId, title, content, clientId, mutationError)
        <==> ValidationError(userId, title, content, clientId).None? && mutationError.None?
  {
  }

  class Dialog {
    var title: string
    var content: string
    var clientId: string
    var isSubmitting: bool
    /** The toasts, mutations and close requests so far, in order. */
    var effects: seq<Effect>

    constructor ()
      ensures title == "" && content == "" && clientId == "" && !isSubmitting && effects == []
    {
      title, content, clientId, isSubmitting, effects := "", "", "", false, [];
    }

    /** The inputs' change handlers. */
    method Edit(newTitle: string, newContent: string, newClientId: string)
      modifies this
      ensures title == newTitle && content == newContent && clientId == newClientId
      ensures isSubmitting == old(isSubmitting) && effects == old(effects)
    {
      title, content, clientId := newTitle, newContent, newClientId;
    }

    /** `handleSubmit`, for the signed-in user's id and the mutation's outcome. */
    method HandleSubmit(userId: Option<string>, mutationError: Option<string>)
      modifies this
      ensures effects == old(effects) + SubmitEffects(userId, old(title), old(content), old(clientId), mutationError)
      ensures var done := ValidationError(userId, old(title), old(content), old(clientId)).None? && mutationError.None?;
        if done then title == "" && content == "" && clientId == ""
        else title == old(title) && content == old(content) && clientId == old(clientId)
      ensures isSubmitting == (if ValidationError(userId, old(title), old(content), old(clientId)).Some? then old(isSubmitting) else false)
    {
      var t, c := Trim(title), Trim(content);
      if !Truthy(userId) {
        assert SubmitEffects(userId, title, content, clientId, mutationError) == [Toast("Error", "User not authenticated", true)];
        effects := effects + [Toast("Error", "User not authenticated", true)];
        return;
      }
      if t == "" || c == "" || clientId == "" {
        assert SubmitEffects(userId, title, content, clientId, mutationError) == [Toast("Error", "Please fill in all fields", true)];
        effects := effects + [Toast("Error", "Please fill in all fields", true)];
        return;
      }
      var m := CreateMutation(ContractInput(userId.value, clientId, t, c));
      isSubmitting := true;
      if mutationError.None? {
        assert SubmitEffects(userId, title, content, clientId, mutationError) == [m, Toast("Success", "Contract created successfully", false), Close];
        effects := effects + [m, Toast("Success", "Contract created successfully", false), Close];
        title, content, clientId := "", "", "";
      } else {
        assert SubmitEffects(userId, title, content, clientId, mutationError) == [m, Toast("Error", "Failed to create contract. Please try again.", true)];
        effects := effects + [m, Toast("Error", "Failed to create contract. Please try again.", true)];
      }
      isSubmitting := false;
    }
  }
}
