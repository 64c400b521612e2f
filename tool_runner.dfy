/**
 * The tool invocation panel: the input fields each tool offers, the form
 * record built from them, key-by-key edits, and a submit that shows a
 * loading state and later a mock execution log.
 */
module ToolRunner {
  import opened Wrappers
  import opened Types
  import opened Text

  const ResearchId := "tool-research_agent"
  const ScribeId := "tool-scribe-assistant"
  const CalendarId := "tool-create_calendar_event"
  const NewsId := "tool-get_news"

  /** One hour in milliseconds: the gap between the default start and end times. */
  const OneHourMs: int := 60 * 60 * 1000

  /** An input field of the form; `kind` is the HTML input type. */
  datatype FormField = FormField(name: string, labelText: string, kind: string, placeholder: string,
                                 defaultValue: Option<string>)

  /** The record of input values, keyed by field name. */
  type Form = map<string, string>

  predicate KnownTool(id: string) {
    id == ResearchId || id == ScribeId || id == CalendarId || id == NewsId
  }

  /** `toolFields`: the fields offered for workflow `id`.  `now` is the clock in
      milliseconds and `iso` the minute-precision ISO text of a clock reading. */
  function ToolFields(id: string, now: int, iso: int -> string): (r: seq<FormField>)
    ensures r == [] <==> !KnownTool(id)
    ensures forall i :: 0 <= i < |r| ==> r[i].kind in {"text", "datetime-local"}
  {
    if id == ResearchId || id == ScribeId then
      [FormField("topic", "Topic", "text", "e.g., Synthetic Biology", None)]
    else if id == CalendarId then
      [FormField("title", "Event Title", "text", "e.g., Midterm Study Session", None),
       FormField("start_time_iso", "Start Time", "datetime-local", "", Some(iso(now))),
       FormField("end_time_iso", "End Time", "datetime-local", "", Some(iso(now + OneHourMs)))]
    else if id == NewsId then
      [FormField("query", "News Query", "text", "e.g., AI advancements", None)]
    else
      []
  }

  function Names(fields: seq<FormField>): (r: seq<string>)
    ensures |r| == |fields| && forall i :: 0 <= i < |r| ==> r[i] == fields[i].name
  {
    if fields == [] then [] else [fields[0].name] + Names(fields[1..])
  }

  /** Each tool's field names, in order; an unknown tool has none, and the
      calendar's end default is the start default's clock reading plus one hour. */
  lemma FieldListsPerTool(id: string, now: int, iso: int -> string)
    ensures var fields := ToolFields(id, now, iso);
            && (id == ResearchId || id == ScribeId ==> Names(fields) == ["topic"])
            && (id == NewsId ==> Names(fields) == ["query"])
            && (id == CalendarId ==>
                  && Names(fields) == ["title", "start_time_iso", "end_time_iso"]
                  && fields[0].defaultValue == None
                  && fields[1].defaultValue == Some(iso(now))
                  && fields[2].defaultValue == Some(iso(now + OneHourMs)))
            && (!KnownTool(id) <==> fields == [])
  {
    var fields := ToolFields(id, now, iso);
    if id == CalendarId {
      assert Names(fields) == [fields[0].name, fields[1].name, fields[2].name];
    }
  }

  /** No tool offers two fields with the same name. */
  lemma ToolFieldNamesDistinct(id: string, now: int, iso: int -> string)
    ensures var fields := ToolFields(id, now, iso);
            forall i, j :: 0 <= i < j < |fields| ==> fields[i].name != fields[j].name
  {
  }

  // ---------------------------------------------------------------------------
  // The initial form

  /** `field.defaultValue || ''`. */
  function InitialValue(f: FormField): string {
    match f.defaultValue
    case Some(v) => v
    case None => ""
  }

  /** The record after writing the fields' initial values in order. */
  function FormOf(fields: seq<FormField>): Form
    decreases |fields|
  {
    if fields == [] then map[]
    else FormOf(fields[..|fields| - 1])[fields[|fields| - 1].name := InitialValue(fields[|fields| - 1])]
  }

  /** Field `i` is the last one carrying its name. */
  ghost predicate LastWithName(fields: seq<FormField>, i: int) {
    0 <= i < |fields| && forall j :: i < j < |fields| ==> fields[j].name != fields[i].name
  }

  /** The record has exactly one key per field name. */
  lemma {:induction false} FormOfKeys(fields: seq<FormField>)
    ensures FormOf(fields).Keys == set i | 0 <= i < |fields| :: fields[i].name
    decreases |fields|
  {
    if fields != [] {
      var n := |fields| - 1;
      FormOfKeys(fields[..n]);
      assert (set i | 0 <= i < |fields| :: fields[i].name)
          == (set i | 0 <= i < n :: fields[..n][i].name) + {fields[n].name};
    }
  }

  /** A name's value is the initial value of the last field carrying it. */
  lemma {:induction false} FormOfLast(fields: seq<FormField>, i: int)
    requires LastWithName(fields, i)
    ensures fields[i].name in FormOf(fields) && FormOf(fields)[fields[i].name] == InitialValue(fields[i])
    decreases |fields|
  {
    var n := |fields| - 1;
    if i < n {
      assert LastWithName(fields[..n], i);
      FormOfLast(fields[..n], i);
    }
  }

  /** `getInitialState`: writes each field's initial value under its name. */
  method InitialState(fields: seq<FormField>) returns (state: Form)
    ensures state == FormOf(fields)
    ensures state.Keys == set i | 0 <= i < |fields| :: fields[i].name
    ensures forall i :: LastWithName(fields, i) ==> state[fields[i].name] == InitialValue(fields[i])
  {
    state := map[];
    var i := 0;
    while i < |fields|
      invariant 0 <= i <= |fields|
      invariant state == FormOf(fields[..i])
    {
      assert fields[..i + 1][..i] == fields[..i];
      state := state[fields[i].name := InitialValue(fields[i])];
      i := i + 1;
    }
    assert fields[..i] == fields;
    FormOfKeys(fields);
    forall k | LastWithName(fields, k) ensures state[fields[k].name] == InitialValue(fields[k]) {
      FormOfLast(fields, k);
    }
  }

  /** A tool's initial form holds each of its fields under its own name, with
      its default value or the empty string, and nothing else. */
  lemma ToolInitialForm(id: string, now: int, iso: int -> string)
    ensures var fields := ToolFields(id, now, iso);
            && FormOf(fields).Keys == (set i | 0 <= i < |fields| :: fields[i].name)
            && forall i :: 0 <= i < |fields| ==> FormOf(fields)[fields[i].name] == InitialValue(fields[i])
  {
    var fields := ToolFields(id, now, iso);
    FormOfKeys(fields);
    ToolFieldNamesDistinct(id, now, iso);
    forall i | 0 <= i < |fields| ensures FormOf(fields)[fields[i].name] == InitialValue(fields[i]) {
      FormOfLast(fields, i);
    }
  }

  // ---------------------------------------------------------------------------
  // The execution log

  /** A template placeholder `${form.key}`: "undefined" for a missing key. */
  function Lookup(form: Form, key: string): (r: string)
    ensures key in form ==> r == form[key]
    ensures key !in form ==> r == "undefined"
  {
    if key in form then form[key] else "undefined"
  }

  const SuccessPrefix := "Execution successful for tool: "
  // One sentence, written as two literals so that QuotedIsNotNoMock can read
  // its first character.
  const NoMockText := "Tool executed, " + "but no specific mock result is configured for this tool."

  /** A template `head'${value}'tail`. */
  function Quoting(head: string, value: string, tail: string): (r: string)
    ensures Contains(r, "'" + value + "'")
    ensures |head| > 0 ==> r[0] == head[0]
  {
    ContainsInfix(head, "'" + value + "'", tail);
    head + ("'" + value + "'") + tail
  }

  // The fixed text around each tool's quoted input.
  const ResearchHead := "Knowledge Packet on "
  const ResearchTail := " compiled.\nKey findings: ...\nSources analyzed: 5\nConfidence: 95%"
  const CalendarHead := "Event "
  const CalendarTail := " created successfully in Google Calendar.\nEvent ID: xyz123abc456"
  const NewsHead := "Found 5 articles for query "
  const NewsTail := ":\n1. \"New AI Model Shatters Benchmarks\"\n2. \"The Ethics of Advanced AI\"\n3. ..."
  const ScribeHead := "Scroll of "
  const ScribeTail := " summarized.\nThe papyrus reads: \"...\""

  /** The tool-specific part of the log. */
  function MockBody(id: string, form: Form): string {
    if id == ResearchId then Quoting(ResearchHead, Lookup(form, "topic"), ResearchTail)
    else if id == CalendarId then Quoting(CalendarHead, Lookup(form, "title"), CalendarTail)
    else if id == NewsId then Quoting(NewsHead, Lookup(form, "query"), NewsTail)
    else if id == ScribeId then Quoting(ScribeHead, Lookup(form, "topic"), ScribeTail)
    else NoMockText
  }

  /** The whole log for workflow `w`, inputs `form` and their JSON text `inputsJson`. */
  function MockResult(w: Workflow, form: Form, inputsJson: string): string {
    SuccessPrefix + w.name + "\n\n" + "Inputs Provided:\n" + inputsJson + "\n\n" + "Mock Result:\n" + MockBody(w.id, form)
  }

  /** Builds the log piece by piece, as the submit callback does. */
  method BuildMockResult(w: Workflow, form: Form, inputsJson: string) returns (text: string)
    ensures text == MockResult(w, form, inputsJson)
    ensures StartsWith(text, SuccessPrefix + w.name)
  {
    var head := SuccessPrefix + w.name;
    text := head + "\n\n";
    PrefixOfAppend(head, "\n\n");
    ExtendKeepsPrefix(text, "Inputs Provided:\n" + inputsJson + "\n\n", head);
    text := text + "Inputs Provided:\n" + inputsJson + "\n\n";
    ExtendKeepsPrefix(text, "Mock Result:\n", head);
    text := text + "Mock Result:\n";
    ExtendKeepsPrefix(text, MockBody(w.id, form), head);
    text := text + MockBody(w.id, form);
  }

  /** The log names the tool first and ends with its tool-specific tail. */
  lemma MockResultShape(w: Workflow, form: Form, inputsJson: string)
    ensures var text := MockResult(w, form, inputsJson);
            StartsWith(text, SuccessPrefix + w.name) && EndsWith(text, MockBody(w.id, form))
  {
    var text := MockResult(w, form, inputsJson);
    assert text[..|SuccessPrefix + w.name|] == SuccessPrefix + w.name;
  }

  /** The generic tail is used exactly for the tools that offer no fields. */
  lemma DefaultTailIffNoFields(id: string, form: Form, now: int, iso: int -> string)
    ensures MockBody(id, form) == NoMockText <==> ToolFields(id, now, iso) == []
  {
    if id == ResearchId {
      QuotedIsNotNoMock(ResearchHead, Lookup(form, "topic"), ResearchTail);
    } else if id == CalendarId {
      QuotedIsNotNoMock(CalendarHead, Lookup(form, "title"), CalendarTail);
    } else if id == NewsId {
      QuotedIsNotNoMock(NewsHead, Lookup(form, "query"), NewsTail);
    } else if id == ScribeId {
      QuotedIsNotNoMock(ScribeHead, Lookup(form, "topic"), ScribeTail);
    }
  }

  /** A quoted template whose head does not start with 'T' is not the generic text. */
  lemma QuotedIsNotNoMock(head: string, value: string, tail: string)
    requires |head| > 0 && head[0] != 'T'
    ensures Quoting(head, value, tail) != NoMockText
  {
    assert NoMockText[0] == 'T';
  }

  /** For every tool that offers fields, the value of its first field appears
      quoted in the log (as "undefined" when the key is missing). */
  lemma FirstInputQuoted(id: string, form: Form, now: int, iso: int -> string)
    requires ToolFields(id, now, iso) != []
    ensures Contains(MockBody(id, form), "'" + Lookup(form, ToolFields(id, now, iso)[0].name) + "'")
  {
  }

  // ---------------------------------------------------------------------------
  // The panel's state

  /** What the panel shows below the tool header. */
  datatype Panel = InputForm(fields: seq<FormField>) | NotConfigured

  /** A form is offered only when the field list is non-empty. */
  function PanelFor(fields: seq<FormField>): (p: Panel)
    ensures p.InputForm? <==> |fields| > 0
    ensures p.InputForm? ==> p.fields == fields
  {
    if |fields| > 0 then InputForm(fields) else NotConfigured
  }

  /** So exactly the four known tools are offered a form. */
  lemma FormOfferedIffKnown(id: string, now: int, iso: int -> string)
    ensures PanelFor(ToolFields(id, now, iso)).InputForm? <==> KnownTool(id)
  {
  }

  class ToolRunnerPanel {
    const workflow: Workflow
    const fields: seq<FormField>
    var formData: Form
    var result: Option<string>
    var isLoading: bool
    /** The form as the pending completion callback captured it at submit time. */
    var pendingInputs: Option<Form>

    /** The panel for workflow `w`, mounted when the clock reads `now`. */
    constructor(w: Workflow, now: int, iso: int -> string)
      ensures workflow == w && fields == ToolFields(w.id, now, iso)
      ensures formData == FormOf(fields)
      ensures result == None && !isLoading && pendingInputs == None
    {
      var fs := ToolFields(w.id, now, iso);
      var initial := InitialState(fs);
      workflow := w;
      fields := fs;
      formData := initial;
      result := None;
      isLoading := false;
      pendingInputs := None;
    }

    /** `handleInputChange`: sets the named key and nothing else. */
    method HandleInputChange(name: string, value: string)
      modifies this
      ensures formData == old(formData)[name := value]
      ensures forall k :: k in old(formData) && k != name ==> k in formData && formData[k] == old(formData)[k]
      ensures result == old(result) && isLoading == old(isLoading) && pendingInputs == old(pendingInputs)
    {
      formData := formData[name := value];
    }

    /** `handleSubmit`: shows the loading state, clears the previous result and
        schedules the completion with the current inputs. */
    method HandleSubmit()
      modifies this
      ensures isLoading && result == None
      ensures pendingInputs == Some(formData) && formData == old(formData)
    {
      isLoading := true;
      result := None;
      pendingInputs := Some(formData);
    }

    /** The scheduled completion: clears the loading state and shows the log
        built from the captured inputs; `json` is `JSON.stringify`. */
    method CompleteSubmit(json: Form -> string)
      requires pendingInputs.Some?
      modifies this
      ensures !isLoading && pendingInputs == None && formData == old(formData)
      ensures result == Some(MockResult(workflow, old(pendingInputs).value, json(old(pendingInputs).value)))
      ensures StartsWith(result.value, SuccessPrefix + workflow.name)
    {
      var inputs := pendingInputs.value;
      var text := BuildMockResult(workflow, inputs, json(inputs));
      isLoading := false;
      result := Some(text);
      pendingInputs := None;
    }
  }
}
