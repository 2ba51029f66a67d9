/**
 * The admin's template picker: it lists the stored templates under ids
 * `template-{position}`, sends add, edit and delete requests to the template
 * route (reading the position back out of the id), reloads the list after
 * each success, sends a picked template into the chat, and refuses to close
 * while a load or a send is in flight.
 *
 * Each awaited request is one step here: the handler runs to completion with
 * the response's outcome given as a parameter. Loading and sending, which the
 * close guard watches, are split into a begin step and a complete step.
 */
module TemplateModal {
  import opened Common
  import opened JsString
  import opened TemplateRoute

  /** A listed template: its display id and its text. */
  datatype Template = Template(id: string, text: string)

  /** The body of a request to the template route. */
  datatype Request = Request(action: string, template: TemplateArg, index: IndexArg)

  /** The display id of the template at position `i`. */
  function TemplateId(i: nat): string {
    "template-" + NatToString(i)
  }

  /** The fetched texts with their display ids, in the route's order. */
  function WithIds(texts: seq<string>): (r: seq<Template>)
    ensures |r| == |texts|
    ensures forall k :: 0 <= k < |r| ==> r[k].text == texts[k] && r[k].id == TemplateId(k)
  {
    seq(|texts|, k requires 0 <= k < |texts| => Template(TemplateId(k), texts[k]))
  }

  /** `parseInt(templateId.split("-")[1])`: the text after the first '-' read
      as an integer; with no '-' the piece is `undefined` and the result NaN
      (`None`). */
  function IndexOfId(templateId: string): Option<int> {
    var parts := Split(templateId, '-');
    if |parts| < 2 then None else ParseInt(parts[1])
  }

  /** `JSON.stringify` sends NaN as `null`, which the route reads as not a number. */
  function IndexArgOf(x: Option<int>): IndexArg {
    match x
    case None => NotNumber
    case Some(i) => Number(i)
  }

  /** Reading the position back out of a display id gives the position. */
  lemma IndexOfTemplateId(i: nat)
    ensures IndexOfId(TemplateId(i)) == Some(i)
  {
    var digits := NatToString(i);
    assert '-' !in "template";
    assert TemplateId(i) == "template" + ['-'] + digits;
    SplitAfterFirst("template", '-', digits);
    assert '-' !in digits by {
      forall k | 0 <= k < |digits| ensures digits[k] != '-' {
        assert IsDigit(digits[k]);
      }
    }
    SplitNoSeparator(digits, '-');
    assert Split(TemplateId(i), '-') == ["template", digits];
    ParseIntOfNatToString(i);
  }

  /** Editing a listed template changes exactly that template on the server
      (when the new text is accepted). */
  lemma EditTargetsListed(texts: seq<string>, k: nat, t: string)
    requires k < |texts|
    requires Trim(t) != "" && (FindIndex(texts, Trim(t)) == -1 || FindIndex(texts, Trim(t)) == k)
    ensures ApplyAction(texts, Edit, Text(Trim(t)), IndexArgOf(IndexOfId(WithIds(texts)[k].id)))
         == Updated(texts[k := Trim(t)])
  {
    IndexOfTemplateId(k);
    TrimIdempotent(t);
  }

  /** Deleting a listed template removes exactly that template on the server. */
  lemma DeleteTargetsListed(texts: seq<string>, k: nat)
    requires k < |texts|
    ensures ApplyAction(texts, Delete, NoTemplate, IndexArgOf(IndexOfId(WithIds(texts)[k].id)))
         == Updated(texts[..k] + texts[k + 1..])
  {
    IndexOfTemplateId(k);
  }

  /** The picker's state. `closeRequests` counts calls of the parent's `onClose`;
      `sent` records what was handed to the parent's `onSendTemplate`. */
  class Modal {
    var templates: seq<Template>
    var isLoading: bool
    var newTemplate: string
    var isAddingNew: bool
    var editingTemplate: Option<string>
    var editText: string
    var error: string
    var sendingTemplate: Option<string>
    var closeRequests: nat
    var sent: seq<string>

    constructor()
      ensures templates == [] && !isLoading && newTemplate == "" && !isAddingNew
      ensures editingTemplate.None? && editText == "" && error == "" && sendingTemplate.None?
      ensures closeRequests == 0 && sent == []
    {
      templates := [];
      isLoading := false;
      newTemplate := "";
      isAddingNew := false;
      editingTemplate := None;
      editText := "";
      error := "";
      sendingTemplate := None;
      closeRequests := 0;
      sent := [];
    }

    /** `!sendingTemplate`: no send in flight (an empty template is falsy). */
    predicate Sending()
      reads this
    {
      sendingTemplate.Some? && sendingTemplate.value != ""
    }

    /** The synchronous start of `fetchTemplates`. */
    method BeginFetch()
      modifies this`isLoading, this`error
      ensures isLoading && error == ""
    {
      isLoading := true;
      error := "";
    }

    /** The end of `fetchTemplates`: the route's list (`None` when the request
        failed) replaces the listing, or the error is shown; loading ends
        either way. */
    method CompleteFetch(response: Option<seq<string>>)
      modifies this`templates, this`error, this`isLoading
      ensures !isLoading
      ensures response.Some? ==> templates == WithIds(response.value) && error == old(error)
      ensures response.None? ==> templates == old(templates) && error == "Failed to load templates"
    {
      if response.Some? {
        templates := WithIds(response.value);
      } else {
        error := "Failed to load templates";
      }
      isLoading := false;
    }

    /** `handleAddTemplate`: nothing for a blank draft; otherwise the trimmed
        draft is posted and, on success, the form is reset and a reload begins. */
    method HandleAddTemplate(ok: bool) returns (request: Option<Request>)
      modifies this`newTemplate, this`isAddingNew, this`isLoading, this`error
      ensures Trim(old(newTemplate)) == "" ==>
        request.None? && newTemplate == old(newTemplate) && isAddingNew == old(isAddingNew)
        && isLoading == old(isLoading) && error == old(error)
      ensures Trim(old(newTemplate)) != "" ==> request == Some(Request("add", Text(Trim(old(newTemplate))), NoIndex))
      ensures Trim(old(newTemplate)) != "" && ok ==>
        newTemplate == "" && !isAddingNew && isLoading && error == ""
      ensures Trim(old(newTemplate)) != "" && !ok ==>
        newTemplate == old(newTemplate) && isAddingNew == old(isAddingNew)
        && isLoading == old(isLoading) && error == "Failed to add template"
    {
      if Trim(newTemplate) == "" {
        return None;
      }
      request := Some(Request("add", Text(Trim(newTemplate)), NoIndex));
      if ok {
        newTemplate := "";
        isAddingNew := false;
        BeginFetch();
      } else {
        error := "Failed to add template";
      }
    }

    /** `handleEditTemplate`: nothing for blank edit text; otherwise the trimmed
        text is posted with the position read from the id and, on success,
        editing ends and a reload begins. */
    method HandleEditTemplate(templateId: string, ok: bool) returns (request: Option<Request>)
      modifies this`editingTemplate, this`editText, this`isLoading, this`error
      ensures Trim(old(editText)) == "" ==>
        request.None? && editingTemplate == old(editingTemplate) && editText == old(editText)
        && isLoading == old(isLoading) && error == old(error)
      ensures Trim(old(editText)) != "" ==>
        request == Some(Request("edit", Text(Trim(old(editText))), IndexArgOf(IndexOfId(templateId))))
      ensures Trim(old(editText)) != "" && ok ==>
        editingTemplate.None? && editText == "" && isLoading && error == ""
      ensures Trim(old(editText)) != "" && !ok ==>
        editingTemplate == old(editingTemplate) && editText == old(editText)
        && isLoading == old(isLoading) && error == "Failed to edit template"
    {
      if Trim(editText) == "" {
        return None;
      }
      request := Some(Request("edit", Text(Trim(editText)), IndexArgOf(IndexOfId(templateId))));
      if ok {
        editingTemplate := None;
        editText := "";
        BeginFetch();
      } else {
        error := "Failed to edit template";
      }
    }

    /** `handleDeleteTemplate`: posts the position read from the id; on success
        a reload begins, otherwise the error is shown. */
    method HandleDeleteTemplate(templateId: string, ok: bool) returns (request: Request)
      modifies this`isLoading, this`error
      ensures request == Request("delete", NoTemplate, IndexArgOf(IndexOfId(templateId)))
      ensures ok ==> isLoading && error == ""
      ensures !ok ==> isLoading == old(isLoading) && error == "Failed to delete template"
    {
      request := Request("delete", NoTemplate, IndexArgOf(IndexOfId(templateId)));
      if ok {
        BeginFetch();
      } else {
        error := "Failed to delete template";
      }
    }

    /** The start of `handleSendTemplate`: the template is handed to the chat. */
    method BeginSendTemplate(template: string)
      modifies this`sendingTemplate, this`sent
      ensures sendingTemplate == Some(template) && sent == old(sent) + [template]
    {
      sendingTemplate := Some(template);
      sent := sent + [template];
    }

    /** The end of `handleSendTemplate`: the picker asks to be closed when the
        send went through and shows an error when it threw; either way no send
        is in flight afterwards. */
    method CompleteSendTemplate(ok: bool)
      modifies this`sendingTemplate, this`closeRequests, this`error
      ensures sendingTemplate.None? && !Sending()
      ensures ok ==> closeRequests == old(closeRequests) + 1 && error == old(error)
      ensures !ok ==> closeRequests == old(closeRequests) && error == "Failed to send template"
    {
      if ok {
        closeRequests := closeRequests + 1;
      } else {
        error := "Failed to send template";
      }
      sendingTemplate := None;
    }

    /** `handleClose`: refused while a load or a send is in flight; otherwise the
        drafts and the error are cleared and the parent is asked to close. */
    method HandleClose() returns (closed: bool)
      modifies this`isAddingNew, this`newTemplate, this`editingTemplate, this`editText, this`error, this`closeRequests
      ensures closed <==> !old(isLoading) && !old(Sending())
      ensures closed ==>
        !isAddingNew && newTemplate == "" && editingTemplate.None? && editText == "" && error == ""
        && closeRequests == old(closeRequests) + 1
      ensures !closed ==>
        isAddingNew == old(isAddingNew) && newTemplate == old(newTemplate) && editingTemplate == old(editingTemplate)
        && editText == old(editText) && error == old(error) && closeRequests == old(closeRequests)
    {
      closed := !isLoading && !Sending();
      if closed {
        isAddingNew := false;
        newTemplate := "";
        editingTemplate := None;
        editText := "";
        error := "";
        closeRequests := closeRequests + 1;
      }
    }

    /** `startEditing`: the template's id is marked as being edited, its text
        becomes the edit draft. */
    method StartEditing(t: Template)
      modifies this`editingTemplate, this`editText
      ensures editingTemplate == Some(t.id) && editText == t.text
    {
      editingTemplate := Some(t.id);
      editText := t.text;
    }

    /** `cancelEditing`: no template is being edited and the draft is cleared. */
    method CancelEditing()
      modifies this`editingTemplate, this`editText
      ensures editingTemplate.None? && editText == ""
    {
      editingTemplate := None;
      editText := "";
    }
  }
}
