/**
 * The supermarkets page (frontend/src/pages/SupermarketsPage.tsx): the name
 * search, the card and dialog colours, and the dialog's choice between
 * updating an existing supermarket and creating a new one.
 */
module SupermarketsPage {
  import opened Wrappers
  import opened JsText
  import opened Types
  import Seqs
  import ColorPicker

  /** `filteredSupermarkets`: the supermarkets whose name contains the search, in order. */
  function FilteredSupermarkets(supermarkets: seq<Supermarket>, searchTerm: string): (r: seq<Supermarket>)
    ensures Seqs.IsSubsequence(r, supermarkets)
    ensures forall i :: 0 <= i < |r| ==> ContainsIgnoringCase(r[i].name, searchTerm)
    ensures forall i :: 0 <= i < |supermarkets| && ContainsIgnoringCase(supermarkets[i].name, searchTerm) ==>
      supermarkets[i] in r
  {
    var matches := (s: Supermarket) => ContainsIgnoringCase(s.name, searchTerm);
    Seqs.FilterIsSubsequence(supermarkets, matches);
    Seqs.Filter(supermarkets, matches)
  }

  /** An empty search keeps every supermarket. */
  lemma EmptySearchKeepsAll(supermarkets: seq<Supermarket>)
    ensures FilteredSupermarkets(supermarkets, "") == supermarkets
  {
    var matches := (s: Supermarket) => ContainsIgnoringCase(s.name, "");
    forall i | 0 <= i < |supermarkets| ensures matches(supermarkets[i]) {
      EmptyTermMatches(supermarkets[i].name);
    }
    Seqs.FilterKeepsAll(supermarkets, matches);
  }

  /** The card's colour: `supermarket.color || '#6366F1'`. */
  function CardColor(s: Supermarket): (c: string)
    ensures s.color != "" ==> c == s.color
    ensures s.color == "" ==> c == ColorPicker.DefaultColor
  {
    if s.color != "" then s.color else ColorPicker.DefaultColor
  }

  // ---------------------------------------------------------------------------
  // The dialog

  /** The dialog's fields. */
  datatype ModalFields = ModalFields(name: string, logoUrl: string, color: string)

  /** The fields the dialog opens with: the edited supermarket's, or empty with the default colour. */
  function InitialFields(supermarket: Option<Supermarket>): (f: ModalFields)
    ensures supermarket.None? ==> f == ModalFields("", "", ColorPicker.DefaultColor)
    ensures supermarket.Some? ==>
      f.name == supermarket.value.name && f.color == CardColor(supermarket.value) &&
      f.logoUrl == OrText(supermarket.value.logoUrl, "")
  {
    match supermarket
    case None => ModalFields("", "", ColorPicker.DefaultColor)
    case Some(s) => ModalFields(s.name, OrText(s.logoUrl, ""), if s.color != "" then s.color else ColorPicker.DefaultColor)
  }

  datatype SubmitAction =
    | UpdateSupermarket(id: int, payload: ModalFields)
    | CreateSupermarket(payload: ModalFields)

  /** `handleSubmit`: update by id when editing, create otherwise, with the fields as typed. */
  function Submit(supermarket: Option<Supermarket>, fields: ModalFields): (r: SubmitAction)
    ensures r.UpdateSupermarket? <==> supermarket.Some?
    ensures r.UpdateSupermarket? ==> r.id == supermarket.value.id
    ensures r.payload == fields
  {
    match supermarket
    case Some(s) => UpdateSupermarket(s.id, fields)
    case None => CreateSupermarket(fields)
  }

  /** A new supermarket submitted without touching the colour is created with a valid default colour. */
  lemma NewSupermarketColor(name: string, logoUrl: string)
    ensures Submit(None, InitialFields(None).(name := name, logoUrl := logoUrl))
         == CreateSupermarket(ModalFields(name, logoUrl, ColorPicker.DefaultColor))
    ensures ColorPicker.IsValidHexColor(ColorPicker.DefaultColor)
  {
    ColorPicker.DefaultIsValid();
    assert ColorPicker.DefaultColor[1..] == "6366F1";
  }

  /** Saving an edited supermarket unchanged sends its own name and displayed colour back. */
  lemma UnchangedEditKeepsSupermarket(s: Supermarket)
    ensures Submit(Some(s), InitialFields(Some(s))) == UpdateSupermarket(s.id, ModalFields(s.name, OrText(s.logoUrl, ""), CardColor(s)))
  {
  }

  datatype PageState = PageState(showModal: bool, editing: Option<Supermarket>)

  /** `handleSave`: the dialog closes and nothing is being edited any more. */
  function HandleSave(s: PageState): (r: PageState)
    ensures !r.showModal && r.editing.None?
  {
    PageState(false, None)
  }

  /** `handleEdit`: the dialog opens on that supermarket; saving then closes it again. */
  function HandleEdit(s: PageState, supermarket: Supermarket): (r: PageState)
    ensures r.showModal && r.editing == Some(supermarket)
  {
    PageState(true, Some(supermarket))
  }

  /** After editing and saving the page is back to its resting state, whatever it was before. */
  lemma EditThenSave(s: PageState, supermarket: Supermarket)
    ensures HandleSave(HandleEdit(s, supermarket)) == PageState(false, None)
    ensures Submit(HandleEdit(s, supermarket).editing, InitialFields(Some(supermarket))).UpdateSupermarket?
  {
  }
}
