/** The contracts page: which view it shows, each card's client badge, content
    preview and PDF file name, the client list given to the PDF, and the state of
    its dialogs. */
module ContractsPage {
  import opened Common
  import opened ContractHooks

  datatype View = Spinner | EmptyCard(createDisabled: bool) | ContractList

  /** The view: a spinner while anything loads or is missing, the empty card for
      no contracts, the list otherwise. */
  function SelectView(userLoading: bool, contractsLoading: bool, contractsFetching: bool,
                      signedIn: bool, contracts: Option<seq<Contract>>, canCreate: bool): (v: View)
    ensures v == Spinner <==> userLoading || contractsLoading || contractsFetching || !signedIn || contracts.None?
    ensures v.EmptyCard? <==> v != Spinner && contracts.value == []
    ensures v.EmptyCard? ==> (v.createDisabled <==> !canCreate)
  {
    if userLoading || contractsLoading || contractsFetching || !signedIn || contracts.None? then Spinner
    else if contracts.value == [] then EmptyCard(!canCreate)
    else ContractList
  }

  /** Whether a view has the Create Contract button enabled: only the empty card
      has the button, and it is disabled when creation is refused. */
  predicate CreateButtonEnabled(v: View) {
    v.EmptyCard? && !v.createDisabled
  }

  /** Whether the view mounts the create dialog: as written, only the list does,
      because `<CreateContractDialog>` sits after the list of cards and the empty
      card returns early without it. */
  predicate CreateDialogMounted(v: View) {
    v == ContractList
  }

  /** The create dialog is on screen when it is mounted and its flag is set. */
  predicate CreateDialogShown(v: View, createDialogOpen: bool) {
    CreateDialogMounted(v) && createDialogOpen
  }

  /** As written, the create button never shows the dialog: the one view that
      has the button is a view that does not mount it, whatever the flag says. */
  lemma CreateButtonShowsNothing(v: View, createDialogOpen: bool)
    requires CreateButtonEnabled(v)
    ensures v.EmptyCard?
    ensures !CreateDialogShown(v, createDialogOpen)
  {
  }

  /** The empty card corrected: it mounts the create dialog too. */
  predicate CreateDialogMountedCorrected(v: View) {
    v.EmptyCard? || v == ContractList
  }

  /** With the correction, pressing the enabled create button shows the dialog. */
  lemma CorrectedCreateButtonShowsDialog(v: View)
    requires CreateButtonEnabled(v)
    ensures CreateDialogMountedCorrected(v) && !CreateDialogMounted(v)
  {
  }

  /** The content preview shown on a card. */
  datatype Preview = NoContent | Text(text: string)

  /** The first 200 characters and an ellipsis for a longer content, the content
      itself otherwise, and no text at all for an empty one. */
  function ContentPreview(content: string): (p: Preview)
    ensures content == "" <==> p == NoContent
    ensures |content| > 200 ==> p == Text(content[..200] + "...")
    ensures 0 < |content| <= 200 ==> p == Text(content)
    ensures p.Text? ==> |p.text| <= 203 && StartsWith(content, p.text[..if |content| > 200 then 200 else |content|])
  {
    if content == "" then NoContent
    else if |content| > 200 then
      var t := content[..200] + "...";
      assert t[..200] == content[..200];
      Text(t)
    else Text(content)
  }

  predicate IsAsciiAlnum(c: char) {
    ('a' <= c <= 'z') || ('A' <= c <= 'Z') || ('0' <= c <= '9')
  }

  /** One character of `replace(/[^a-zA-Z0-9]/g, '-').toLowerCase()`. */
  function SanitizeChar(c: char): (r: char)
    ensures ('a' <= r <= 'z') || ('0' <= r <= '9') || r == '-'
    ensures !IsAsciiAlnum(c) <==> r == '-'
    ensures ('A' <= c <= 'Z') ==> r as int == c as int + 32
    ensures ('a' <= c <= 'z') || ('0' <= c <= '9') ==> r == c
  {
    if 'A' <= c <= 'Z' then (c as int + 32) as char
    else if ('a' <= c <= 'z') || ('0' <= c <= '9') then c
    else '-'
  }

  predicate IsSafeFileChar(c: char) {
    ('a' <= c <= 'z') || ('0' <= c <= '9') || c == '-'
  }

  /** The title made safe for a file name. */
  function Sanitize(title: string): (r: string)
    ensures |r| == |title|
    ensures forall i :: 0 <= i < |r| ==> IsSafeFileChar(r[i]) && r[i] == SanitizeChar(title[i])
  {
    seq(|title|, i requires 0 <= i < |title| => SanitizeChar(title[i]))
  }

  /** Sanitising is idempotent, and leaves an already safe title unchanged. */
  lemma SanitizeIdempotent(title: string)
    ensures Sanitize(Sanitize(title)) == Sanitize(title)
    ensures (forall i :: 0 <= i < |title| ==> IsSafeFileChar(title[i])) ==> Sanitize(title) == title
  {
  }

  /** The file name of a contract's PDF. */
  function PdfFileName(c: Contract): (r: string)
    ensures |r| == 9 + |c.title| + 1 + (if |c.id| < 8 then |c.id| else 8) + 4
    ensures StartsWith(r, "contract-") && r[|r| - 4..] == ".pdf"
    ensures r[9..9 + |c.title|] == Sanitize(c.title) && r[9 + |c.title|] == '-'
    ensures r[10 + |c.title|..|r| - 4] == Prefix(c.id, 8) && StartsWith(c.id, Prefix(c.id, 8))
  {
    var r := "contract-" + Sanitize(c.title) + "-" + Prefix(c.id, 8) + ".pdf";
    assert r[..9] == "contract-";
    assert r[9..9 + |c.title|] == Sanitize(c.title);
    assert r[10 + |c.title|..|r| - 4] == Prefix(c.id, 8);
    r
  }

  /** The client badge: the client's name, or a placeholder naming the client id. */
  function ClientBadge(c: Contract): (r: string)
    ensures c.clients.Some? && c.clients.value.name != "" ==> r == c.clients.value.name
    ensures c.clients.None? || c.clients.value.name == "" ==> r == "Unknown Client (" + c.clientId + ")"
  {
    OrElse(if c.clients.Some? then Some(c.clients.value.name) else None, "Unknown Client (" + c.clientId + ")")
  }

  /** A client as the PDF receives it: an empty company is dropped. */
  datatype PdfClient = PdfClient(id: string, name: string, email: string, company: Option<string>)

  function PdfClients(clients: Option<ClientInfo>): (r: seq<PdfClient>)
    ensures clients.None? <==> r == []
    ensures clients.Some? ==>
      && |r| == 1 && r[0].id == clients.value.id && r[0].name == clients.value.name
      && r[0].email == clients.value.email
      && r[0].company == (if clients.value.company == "" then None else Some(clients.value.company))
  {
    if clients.None? then []
    else
      var k := clients.value;
      [PdfClient(k.id, k.name, k.email, if k.company == "" then None else Some(k.company))]
  }

  /** The author name on the PDF: the profile's full name, else the email, else a placeholder. */
  function PdfUserName(fullName: Option<string>, email: Option<string>): (r: string)
    ensures Truthy(fullName) ==> r == fullName.value
    ensures !Truthy(fullName) && Truthy(email) ==> r == email.value
    ensures !Truthy(fullName) && !Truthy(email) ==> r == "Unknown User"
  {
    OrElse(fullName, OrElse(email, "Unknown User"))
  }

  /** The state behind the page's three dialogs. */
  class PageState {
    var createDialogOpen: bool
    var editDialogOpen: bool
    var deleteDialogOpen: bool
    var selectedContract: Option<Contract>

    constructor ()
      ensures !createDialogOpen && !editDialogOpen && !deleteDialogOpen && selectedContract.None?
    {
      createDialogOpen, editDialogOpen, deleteDialogOpen, selectedContract := false, false, false, None;
    }

    /** `handleEditContract`. */
    method EditContract(c: Contract)
      modifies this
      ensures selectedContract == Some(c) && editDialogOpen
      ensures createDialogOpen == old(createDialogOpen) && deleteDialogOpen == old(deleteDialogOpen)
    {
      selectedContract := Some(c);
      editDialogOpen := true;
    }

    /** `handleDeleteContract`. */
    method DeleteContract(c: Contract)
      modifies this
      ensures selectedContract == Some(c) && deleteDialogOpen
      ensures createDialogOpen == old(createDialogOpen) && editDialogOpen == old(editDialogOpen)
    {
      selectedContract := Some(c);
      deleteDialogOpen := true;
    }

    /** The empty card's Create Contract button: it sets the create flag. The
        empty card does not mount the dialog, so nothing appears (see
        `CreateButtonShowsNothing`). */
    method OpenCreate()
      modifies this
      ensures createDialogOpen
      ensures editDialogOpen == old(editDialogOpen) && deleteDialogOpen == old(deleteDialogOpen)
      ensures selectedContract == old(selectedContract)
    {
      createDialogOpen := true;
    }
  }
}
