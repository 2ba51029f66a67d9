/**
 * The admin template route: the admin's canned chat replies, a list of
 * distinct trimmed strings held in the first settings row. `GET` returns the
 * list; `POST` adds, edits or deletes one entry. Both first create a settings
 * row with default values when the table is empty. The route itself checks no
 * session.
 */
module TemplateRoute {
  import opened Common
  import opened Store
  import opened JsString

  /** The `template` field of the body: absent, not a string, or a string. */
  datatype TemplateArg = NoTemplate | NotString | Text(s: string)

  /** The `index` field of the body: absent, not a number, or an integer. */
  datatype IndexArg = NoIndex | NotNumber | Number(i: int)

  /** The cases of `switch (action)`. */
  datatype Action = Add | Edit | Delete | Unknown

  function ParseAction(a: string): Action {
    if a == "add" then Add else if a == "edit" then Edit else if a == "delete" then Delete else Unknown
  }

  /** The outcome of one action on the list. */
  datatype Outcome = Rejected | Updated(templates: seq<string>)

  /** The row created when no settings row exists. */
  function DefaultSetting(id: string): Setting {
    Setting(id, 10, false, [], [])
  }

  predicate Distinct(ts: seq<string>) {
    forall i, j :: 0 <= i < j < |ts| ==> ts[i] != ts[j]
  }

  predicate AllTrimmed(ts: seq<string>) {
    forall i :: 0 <= i < |ts| ==> IsTrimmed(ts[i])
  }

  /** `template && typeof template === "string" && template.trim()`. */
  predicate NonBlank(t: TemplateArg) {
    t.Text? && Trim(t.s) != ""
  }

  /** `typeof index === "number" && 0 <= index < length`. */
  predicate ValidIndex(x: IndexArg, n: nat) {
    x.Number? && 0 <= x.i < n
  }

  /** `templates.findIndex(t => t === text)`, with -1 for no match. */
  function FindIndex(ts: seq<string>, text: string): (r: int)
    ensures -1 <= r < |ts|
    ensures r == -1 <==> text !in ts
    ensures r >= 0 ==> ts[r] == text && forall j :: 0 <= j < r ==> ts[j] != text
  {
    match FindFirst(ts, (t: string) => t == text)
    case None => -1
    case Some(k) => k
  }

  /** The `switch (action)` on a copy of the stored list: what each action
      does to the list, or that it is refused with 400. */
  function ApplyAction(ts: seq<string>, action: Action, template: TemplateArg, index: IndexArg): (r: Outcome)
    // add: the trimmed text goes at the end iff it is non-blank and not yet present
    ensures action == Add ==>
      (r.Updated? <==> NonBlank(template) && Trim(template.s) !in ts)
      && (r.Updated? ==> r.templates == ts + [Trim(template.s)])
    // edit: a valid index, non-blank text not present elsewhere; only that slot changes
    ensures action == Edit ==>
      (r.Updated? <==> ValidIndex(index, |ts|) && NonBlank(template)
                       && (FindIndex(ts, Trim(template.s)) == -1 || FindIndex(ts, Trim(template.s)) == index.i))
      && (r.Updated? ==> r.templates == ts[index.i := Trim(template.s)])
    // delete: a valid index; exactly that slot goes, the rest keep their order
    ensures action == Delete ==>
      (r.Updated? <==> ValidIndex(index, |ts|))
      && (r.Updated? ==> r.templates == ts[..index.i] + ts[index.i + 1..])
    ensures action == Unknown ==> r.Rejected?
  {
    if action == Add then
      if !NonBlank(template) || Trim(template.s) in ts then Rejected
      else Updated(ts + [Trim(template.s)])
    else if action == Edit then
      if !ValidIndex(index, |ts|) || !NonBlank(template) then Rejected
      else
        var existing := FindIndex(ts, Trim(template.s));
        if existing != -1 && existing != index.i then Rejected
        else Updated(ts[index.i := Trim(template.s)])
    else if action == Delete then
      if !ValidIndex(index, |ts|) then Rejected
      else Updated(ts[..index.i] + ts[index.i + 1..])
    else Rejected
  }

  /** Re-saving the text already at an index is accepted and changes nothing,
      when the list has no duplicates. */
  lemma ResaveSameText(ts: seq<string>, i: nat)
    requires Distinct(ts) && AllTrimmed(ts) && i < |ts| && ts[i] != ""
    ensures ApplyAction(ts, Edit, Text(ts[i]), Number(i)) == Updated(ts)
  {
    var t := ts[i];
    TrimmedIff(t);
    FirstOccurrence(ts, i);
    assert NonBlank(Text(t)) && ValidIndex(Number(i), |ts|);
    var r := ApplyAction(ts, Edit, Text(t), Number(i));
    assert r.Updated?;
    assert r.templates == ts[i := t] == ts;
  }

  /** In a list without duplicates an entry's first occurrence is its own index. */
  lemma FirstOccurrence(ts: seq<string>, i: nat)
    requires Distinct(ts) && i < |ts|
    ensures FindIndex(ts, ts[i]) == i
  {
    var k := FindIndex(ts, ts[i]);
    assert ts[k] == ts[i];
  }

  lemma AddKeepsClean(ts: seq<string>, t: string)
    requires Distinct(ts) && AllTrimmed(ts) && IsTrimmed(t) && t !in ts
    ensures Distinct(ts + [t]) && AllTrimmed(ts + [t])
  {
  }

  lemma EditKeepsClean(ts: seq<string>, i: nat, t: string)
    requires Distinct(ts) && AllTrimmed(ts) && IsTrimmed(t) && i < |ts|
    requires FindIndex(ts, t) == -1 || FindIndex(ts, t) == i
    ensures Distinct(ts[i := t]) && AllTrimmed(ts[i := t])
  {
    var r := ts[i := t];
    forall a, b | 0 <= a < b < |r| ensures r[a] != r[b] {
    }
  }

  lemma DeleteKeepsClean(ts: seq<string>, i: nat)
    requires Distinct(ts) && AllTrimmed(ts) && i < |ts|
    ensures Distinct(ts[..i] + ts[i + 1..]) && AllTrimmed(ts[..i] + ts[i + 1..])
  {
    var r := ts[..i] + ts[i + 1..];
    forall a | 0 <= a < |r| ensures r[a] == ts[if a < i then a else a + 1] {
    }
  }

  /** Every successful action keeps the list free of duplicates and of
      untrimmed entries. */
  lemma ActionKeepsListClean(ts: seq<string>, action: Action, template: TemplateArg, index: IndexArg)
    requires Distinct(ts) && AllTrimmed(ts)
    requires ApplyAction(ts, action, template, index).Updated?
    ensures Distinct(ApplyAction(ts, action, template, index).templates)
    ensures AllTrimmed(ApplyAction(ts, action, template, index).templates)
  {
    if action == Add {
      TrimmedIff(template.s);
      AddKeepsClean(ts, Trim(template.s));
    } else if action == Edit {
      TrimmedIff(template.s);
      EditKeepsClean(ts, index.i, Trim(template.s));
    } else {
      DeleteKeepsClean(ts, index.i);
    }
  }

  /** `GET`: the first settings row's templates, creating the default row
      when there is none. */
  method GetTemplates(db: Db, newId: string) returns (templates: seq<string>)
    modifies db`settings
    ensures |old(db.settings)| > 0 ==> db.settings == old(db.settings) && templates == db.settings[0].adminChatTemplates
    ensures |old(db.settings)| == 0 ==> db.settings == [DefaultSetting(newId)] && templates == []
  {
    if |db.settings| == 0 {
      db.settings := db.settings + [DefaultSetting(newId)];
    }
    templates := db.settings[0].adminChatTemplates;
  }

  /** `POST`: a missing action is refused before anything is read; otherwise the
      settings row is fetched or created, the action is applied to a copy of its
      list, and on success the copy is written back and returned. */
  method PostTemplates(db: Db, action: Option<string>, template: TemplateArg, index: IndexArg, newId: string)
    returns (status: int, templates: seq<string>)
    modifies db`settings
    ensures action.None? || action.value == "" ==> status == 400 && db.settings == old(db.settings)
    ensures action.Some? && action.value != "" ==>
      var row := if |old(db.settings)| > 0 then old(db.settings)[0] else DefaultSetting(newId);
      var rest := if |old(db.settings)| > 0 then old(db.settings)[1..] else [];
      match ApplyAction(row.adminChatTemplates, ParseAction(action.value), template, index)
      case Rejected => status == 400 && db.settings == [row] + rest
      case Updated(ts) =>
        status == 200 && templates == ts && db.settings == [row.(adminChatTemplates := ts)] + rest
  {
    if action.None? || action.value == "" {
      return 400, [];
    }
    if |db.settings| == 0 {
      db.settings := db.settings + [DefaultSetting(newId)];
    }
    var settings := db.settings[0];
    var updatedTemplates := settings.adminChatTemplates;
    var a := ParseAction(action.value);
    if a == Add {
      if !NonBlank(template) || Trim(template.s) in updatedTemplates {
        return 400, [];
      }
      updatedTemplates := updatedTemplates + [Trim(template.s)];
    } else if a == Edit {
      if !ValidIndex(index, |updatedTemplates|) {
        return 400, [];
      }
      if !NonBlank(template) {
        return 400, [];
      }
      var existingIndex := FindIndex(updatedTemplates, Trim(template.s));
      if existingIndex != -1 && existingIndex != index.i {
        return 400, [];
      }
      updatedTemplates := updatedTemplates[index.i := Trim(template.s)];
    } else if a == Delete {
      if !ValidIndex(index, |updatedTemplates|) {
        return 400, [];
      }
      updatedTemplates := updatedTemplates[..index.i] + updatedTemplates[index.i + 1..];
    } else {
      return 400, [];
    }
    assert db.settings == [db.settings[0]] + db.settings[1..];
    db.settings := [settings.(adminChatTemplates := updatedTemplates)] + db.settings[1..];
    return 200, updatedTemplates;
  }
}
