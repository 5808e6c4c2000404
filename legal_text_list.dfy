/**
 * The legal texts page. It works on a local list seeded from the initial data: a status toggle,
 * and an editor whose save writes the edited title and content into the list.
 */
module LegalTextList {
  import opened Wrappers
  import opened Types
  import opened Seqs

  /** `typeLabels`: the heading of each of the seven kinds of legal text. */
  function TypeLabel(k: LegalKind): string {
    match k
    case PrivacyPolicy => "Gizlilik Politikası"
    case Kvkk => "KVKK Aydınlatma Metni"
    case CookiePolicy => "Çerez Politikası"
    case DistanceSales => "Mesafeli Satış Sözleşmesi"
    case PreliminaryInfo => "Ön Bilgilendirme Formu"
    case TermsOfUse => "Kullanım Koşulları"
    case ReturnPolicy => "İade ve Değişim Politikası"
  }

  /** Every kind has a non-empty label, and no two kinds share one. */
  lemma TypeLabelsDistinct(a: LegalKind, b: LegalKind)
    ensures TypeLabel(a) != ""
    ensures TypeLabel(a) == TypeLabel(b) ==> a == b
  {
  }

  predicate HasId(t: LegalText, id: string) { t.id == id }

  function Flipped(t: LegalText): LegalText { t.(isActive := !t.isActive) }

  /** `toggleStatus` */
  function WithToggled(texts: seq<LegalText>, id: string): seq<LegalText> {
    MapWhere(texts, (t: LegalText) => HasId(t, id), Flipped)
  }

  /** The list after a save: the edited title and content and the save time on the texts with that id. */
  function WithEdit(texts: seq<LegalText>, id: string, title: string, content: string, now: string): seq<LegalText> {
    MapWhere(texts, (t: LegalText) => HasId(t, id),
      (t: LegalText) => t.(title := title, content := content, updatedAt := now))
  }

  /** A toggle flips the status of the texts with that id and changes nothing else. */
  lemma WithToggledAt(texts: seq<LegalText>, id: string, i: int)
    requires 0 <= i < |texts|
    ensures |WithToggled(texts, id)| == |texts|
    ensures texts[i].id == id ==> WithToggled(texts, id)[i] == texts[i].(isActive := !texts[i].isActive)
    ensures texts[i].id != id ==> WithToggled(texts, id)[i] == texts[i]
  {
    MapWhereAt(texts, (t: LegalText) => HasId(t, id), Flipped, i);
  }

  /** Toggling the same text twice restores the list. */
  lemma ToggleTwice(texts: seq<LegalText>, id: string)
    ensures WithToggled(WithToggled(texts, id), id) == texts
  {
    var once := WithToggled(texts, id);
    forall i | 0 <= i < |texts| ensures WithToggled(once, id)[i] == texts[i] {
      WithToggledAt(texts, id, i);
      WithToggledAt(once, id, i);
    }
  }

  /**
   * A save replaces the title, content and update time of the texts with that id; their id,
   * kind and status stay, and the other texts are untouched.
   */
  lemma WithEditAt(texts: seq<LegalText>, id: string, title: string, content: string, now: string, i: int)
    requires 0 <= i < |texts|
    ensures |WithEdit(texts, id, title, content, now)| == |texts|
    ensures texts[i].id == id ==>
      WithEdit(texts, id, title, content, now)[i]
        == LegalText(id, texts[i].kind, title, content, texts[i].isActive, now)
    ensures texts[i].id != id ==> WithEdit(texts, id, title, content, now)[i] == texts[i]
  {
    MapWhereAt(texts, (t: LegalText) => HasId(t, id),
      (t: LegalText) => t.(title := title, content := content, updatedAt := now), i);
  }

  /** What a save in flight will write: the id of the open text and the buffers when Save was pressed. */
  datatype PendingSave = PendingSave(id: string, title: string, content: string)

  class LegalTextPage {
    var texts: seq<LegalText>
    var editing: Option<LegalText>
    var editedTitle: string
    var editedContent: string
    var isSaving: bool
    var pending: Option<PendingSave>

    constructor (initial: seq<LegalText>)
      ensures texts == initial && editing.None? && editedTitle == "" && editedContent == "" && !isSaving
      ensures pending.None?
    {
      texts := initial;
      editing := None;
      editedTitle := "";
      editedContent := "";
      isSaving := false;
      pending := None;
    }

    /** The Save button is disabled while a save is in flight. */
    function SaveDisabled(): (d: bool)
      reads this
      ensures d <==> isSaving
    {
      isSaving
    }

    /** The Save button's label: 'Kaydediliyor...' while a save is in flight, 'Kaydet' otherwise. */
    function SaveLabel(): (l: string)
      reads this
      ensures isSaving ==> l == "Kaydediliyor..."
      ensures !isSaving ==> l == "Kaydet"
    {
      if isSaving then "Kaydediliyor..." else "Kaydet"
    }

    /** `toggleStatus` */
    method ToggleStatus(id: string)
      modifies this`texts
      ensures texts == WithToggled(old(texts), id)
    {
      texts := WithToggled(texts, id);
    }

    /** `openEditor`: the buffers start from the text's title and content. */
    method OpenEditor(t: LegalText)
      modifies this`editing, this`editedTitle, this`editedContent
      ensures editing == Some(t) && editedTitle == t.title && editedContent == t.content
    {
      editing := Some(t);
      editedTitle := t.title;
      editedContent := t.content;
    }

    /** `closeEditor`: no text is edited and both buffers are empty. */
    method CloseEditor()
      modifies this`editing, this`editedTitle, this`editedContent
      ensures editing.None? && editedTitle == "" && editedContent == ""
    {
      editing := None;
      editedTitle := "";
      editedContent := "";
    }

    method EditTitle(title: string)
      modifies this`editedTitle
      ensures editedTitle == title
    {
      editedTitle := title;
    }

    method EditContent(content: string)
      modifies this`editedContent
      ensures editedContent == content
    {
      editedContent := content;
    }

    /**
     * The first half of `saveContent`, up to its simulated 500 ms wait: with no text open
     * nothing happens; otherwise saving starts and the save in flight holds the open text's id
     * and the buffers as they are now.
     */
    method StartSave()
      modifies this`isSaving, this`pending
      ensures old(editing).None? ==> isSaving == old(isSaving) && pending == old(pending)
      ensures old(editing).Some? ==>
        isSaving && pending == Some(PendingSave(editing.value.id, editedTitle, editedContent))
    {
      if editing.None? {
        return;
      }
      isSaving := true;
      pending := Some(PendingSave(editing.value.id, editedTitle, editedContent));
    }

    /**
     * The second half of `saveContent`, after the wait: the save in flight is written into the
     * texts with its id, stamped with `now`, saving ends and the editor closes. Edits typed
     * during the wait are not written, since the save holds the buffers of the moment Save was
     * pressed. With no save in flight nothing happens.
     */
    method FinishSave(now: string)
      modifies this`texts, this`editing, this`editedTitle, this`editedContent, this`isSaving, this`pending
      ensures old(pending).None? ==>
        texts == old(texts) && editing == old(editing) && editedTitle == old(editedTitle)
        && editedContent == old(editedContent) && isSaving == old(isSaving) && pending.None?
      ensures old(pending).Some? ==>
        && texts == WithEdit(old(texts), old(pending).value.id, old(pending).value.title, old(pending).value.content, now)
        && editing.None? && editedTitle == "" && editedContent == "" && !isSaving && pending.None?
    {
      if pending.None? {
        return;
      }
      texts := WithEdit(texts, pending.value.id, pending.value.title, pending.value.content, now);
      isSaving := false;
      pending := None;
      CloseEditor();
    }

    /**
     * `saveContent` with nothing happening during its wait: with no text open nothing changes.
     * Otherwise the buffers are written into the texts with the edited id, stamped with `now`,
     * and the editor closes.
     */
    method SaveContent(now: string)
      modifies this`texts, this`editing, this`editedTitle, this`editedContent, this`isSaving, this`pending
      ensures old(editing).None? ==>
        texts == old(texts) && editing.None? && editedTitle == old(editedTitle)
        && editedContent == old(editedContent) && isSaving == old(isSaving) && pending == old(pending)
      ensures old(editing).Some? ==>
        && texts == WithEdit(old(texts), old(editing).value.id, old(editedTitle), old(editedContent), now)
        && editing.None? && editedTitle == "" && editedContent == "" && !isSaving && pending.None?
    {
      if editing.None? {
        return;
      }
      StartSave();
      FinishSave(now);
    }
  }
}
