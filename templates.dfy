/** The template page of app/templates/page.tsx: the default templates, the
    custom-template list rebuilt by append and filter and mirrored into
    storage, the selection, and the generation handler with its selection
    guard, first-match lookup and `isGenerating` flag. */
module Templates {
  import opened Wrappers
  import opened JsValue
  import Lists

  datatype Template = Template(id: string, name: string, description: string, image: string, path: string)

  /** `defaultTemplates`. */
  function DefaultTemplates(): seq<Template> {
    [ Template("default", "Default Resume", "A traditional resume layout with a clean design",
               "/templates/latex/Default_Resume-template.jpg", "templates/latex/Default_Resume-template.tex"),
      Template("miller", "John Miller CV", "A contemporary design with a sleek layout",
               "/templates/latex/John_Miller_CV.jpeg", "templates/latex/John_Miller_CV.tex"),
      Template("modular", "Modular Professional", "A sophisticated template for experienced professionals",
               "/templates/latex/Modular_professional_CV.jpeg", "templates/latex/Modular_professional_CV.tex") ]
  }

  /** The default templates have distinct ids. */
  lemma DefaultIdsDistinct()
    ensures var d := DefaultTemplates(); forall i, j :: 0 <= i < j < |d| ==> d[i].id != d[j].id
  {
    var d := DefaultTemplates();
    assert |d| == 3 && d[0].id == "default" && d[1].id == "miller" && d[2].id == "modular";
  }

  function HasId(id: string): Template -> bool {
    (t: Template) => t.id == id
  }

  function OtherId(id: string): Template -> bool {
    (t: Template) => t.id != id
  }

  /** `list.find(t => t.id === id)`. */
  function FindTemplate(list: seq<Template>, id: string): (r: Option<Template>)
    ensures r.Some? ==> r.value.id == id && r.value in list
    ensures r.None? <==> forall i :: 0 <= i < |list| ==> list[i].id != id
  {
    match Lists.FindFirst(list, HasId(id))
    case None => None
    case Some(i) => Some(list[i])
  }

  /** Lookup in `defaults ++ customs` tries the defaults first, so a default
      shadows a custom template with the same id. */
  lemma {:induction false} FindInConcat(a: seq<Template>, b: seq<Template>, id: string)
    ensures FindTemplate(a + b, id) == if FindTemplate(a, id).Some? then FindTemplate(a, id) else FindTemplate(b, id)
    decreases |a|
  {
    if a == [] {
      assert a + b == b;
    } else {
      assert (a + b)[0] == a[0] && (a + b)[1..] == a[1..] + b;
      FindInConcat(a[1..], b, id);
      FirstOrRest(a, id);
      FirstOrRest(a + b, id);
    }
  }

  /** Lookup in a non-empty list is its head when that matches, and lookup
      in its tail otherwise. */
  lemma FirstOrRest(list: seq<Template>, id: string)
    requires list != []
    ensures FindTemplate(list, id) == if list[0].id == id then Some(list[0]) else FindTemplate(list[1..], id)
  {
    if list[0].id != id {
      var r, s := FindTemplate(list, id), FindTemplate(list[1..], id);
      match Lists.FindFirst(list, HasId(id))
      case None =>
        assert forall i :: 0 <= i < |list[1..]| ==> list[1..][i] == list[i + 1];
      case Some(k) =>
        assert k > 0 && list[1..][k - 1] == list[k];
        match Lists.FindFirst(list[1..], HasId(id))
        case None =>
        case Some(m) =>
          assert list[m + 1] == list[1..][m];
          assert m + 1 == k;
    }
  }

  /** After the filter no template has the removed id. */
  lemma RemovedId(list: seq<Template>, id: string)
    ensures forall i :: 0 <= i < |Lists.Filter(list, OtherId(id))| ==> Lists.Filter(list, OtherId(id))[i].id != id
  {
    var kept := Lists.Filter(list, OtherId(id));
    forall i | 0 <= i < |kept|
      ensures kept[i].id != id
    {
      assert kept[i] in kept;
      assert OtherId(id)(kept[i]);
    }
  }

  /** The generation request body. */
  datatype GenerateRequest = GenerateRequest(resumeContent: string, templatePath: string)

  /** What `fetch` and `response.json()` come back with. */
  datatype GenerateReply = FetchFailed | NotOk | Answered(data: Value) | BadJson

  datatype GenerateOutcome = NoSelection | TemplateNotFound | GenerationFailed | Generated

  /** The templates page's state; `storedCustom` and `storedLatex` are the
      `customTemplates` and `latexContent` storage entries, and `navigatedTo`
      records a `router.push`. */
  class TemplatesPage {
    var resumeContent: string
    var selectedTemplate: string
    var templates: seq<Template>
    var customTemplates: seq<Template>
    var isGenerating: bool
    var activeTab: string
    var storedCustom: Option<seq<Template>>
    var storedLatex: Option<Value>
    var navigatedTo: Option<string>

    constructor(resume: string)
      ensures resumeContent == resume && selectedTemplate == "" && templates == DefaultTemplates()
      ensures customTemplates == [] && !isGenerating && activeTab == "default"
      ensures storedCustom == None && storedLatex == None && navigatedTo == None
    {
      resumeContent := resume;
      selectedTemplate := "";
      templates := DefaultTemplates();
      customTemplates := [];
      isGenerating := false;
      activeTab := "default";
      storedCustom := None;
      storedLatex := None;
      navigatedTo := None;
    }

    /** `handleTemplateSelect`. */
    method TemplateSelect(id: string)
      modifies this
      ensures selectedTemplate == id
      ensures resumeContent == old(resumeContent) && templates == old(templates)
      ensures customTemplates == old(customTemplates) && isGenerating == old(isGenerating)
      ensures activeTab == old(activeTab) && storedCustom == old(storedCustom)
      ensures storedLatex == old(storedLatex) && navigatedTo == old(navigatedTo)
    {
      selectedTemplate := id;
    }

    /** `handleAddCustomTemplate`: appends, stores the new list and
        switches to the custom tab. */
    method AddCustomTemplate(t: Template)
      modifies this
      ensures customTemplates == old(customTemplates) + [t]
      ensures storedCustom == Some(customTemplates)
      ensures activeTab == "custom"
      ensures resumeContent == old(resumeContent) && selectedTemplate == old(selectedTemplate)
      ensures templates == old(templates) && isGenerating == old(isGenerating)
      ensures storedLatex == old(storedLatex) && navigatedTo == old(navigatedTo)
    {
      customTemplates := customTemplates + [t];
      storedCustom := Some(customTemplates);
      activeTab := "custom";
    }

    /** `handleRemoveCustomTemplate`: drops every custom template with the
        id, keeping the rest in order; the defaults and the selection are
        untouched. */
    method RemoveCustomTemplate(id: string)
      modifies this
      ensures customTemplates == Lists.Filter(old(customTemplates), OtherId(id))
      ensures forall i :: 0 <= i < |customTemplates| ==> customTemplates[i].id != id
      ensures storedCustom == Some(customTemplates)
      ensures resumeContent == old(resumeContent) && selectedTemplate == old(selectedTemplate)
      ensures templates == old(templates) && isGenerating == old(isGenerating)
      ensures activeTab == old(activeTab) && storedLatex == old(storedLatex) && navigatedTo == old(navigatedTo)
    {
      var kept := Lists.Filter(customTemplates, OtherId(id));
      RemovedId(customTemplates, id);
      customTemplates := kept;
      storedCustom := Some(kept);
    }

    /** `handleGenerateLatex`. An empty selection returns before anything
        else. Otherwise the template is looked up in the defaults, then the
        customs; a request goes out only when it is found; a failed fetch, a
        non-ok status, a body that is not JSON and a JSON `null` (whose
        `latex_content` throws) all end in the catch; and `isGenerating` is
        false again on every way out. */
    method GenerateLatex(reply: GenerateReply) returns (request: Option<GenerateRequest>, outcome: GenerateOutcome)
      modifies this
      ensures old(selectedTemplate) == "" ==>
        && outcome == NoSelection && request == None
        && isGenerating == old(isGenerating) && storedLatex == old(storedLatex) && navigatedTo == old(navigatedTo)
      ensures old(selectedTemplate) != "" ==> !isGenerating
      ensures old(selectedTemplate) != "" ==>
        var found := FindTemplate(old(templates) + old(customTemplates), old(selectedTemplate));
        && (found.None? ==> outcome == TemplateNotFound && request == None)
        && (found.Some? ==> request == Some(GenerateRequest(old(resumeContent), found.value.path)))
        && (found.Some? && reply.Answered? && !IsNullish(reply.data) ==> outcome == Generated)
        && (found.Some? && !(reply.Answered? && !IsNullish(reply.data)) ==> outcome == GenerationFailed)
      ensures outcome == Generated ==>
        storedLatex == Some(Get(reply.data, "latex_content")) && navigatedTo == Some("/preview")
      ensures outcome != Generated ==> storedLatex == old(storedLatex) && navigatedTo == old(navigatedTo)
      ensures resumeContent == old(resumeContent) && selectedTemplate == old(selectedTemplate)
      ensures templates == old(templates) && customTemplates == old(customTemplates)
      ensures activeTab == old(activeTab) && storedCustom == old(storedCustom)
    {
      if selectedTemplate == "" {
        return None, NoSelection;
      }
      isGenerating := true;
      var found := FindTemplate(templates + customTemplates, selectedTemplate);
      if found.None? {
        outcome, request := TemplateNotFound, None;
      } else {
        request := Some(GenerateRequest(resumeContent, found.value.path));
        match reply {
          case Answered(data) =>
            if IsNullish(data) {
              // `data.latex_content` on null throws a TypeError, which the catch reports
              outcome := GenerationFailed;
            } else {
              storedLatex := Some(Get(data, "latex_content"));
              navigatedTo := Some("/preview");
              outcome := Generated;
            }
          case _ =>
            outcome := GenerationFailed;
        }
      }
      isGenerating := false;
    }
  }
}
