/** Opening an authored session type in the edit form and saving it: the form, the definition built from
    it, and its projection on the wire. */
module SessionTypes {
  import opened Wrappers
  import opened Strings
  import opened FormValues

  datatype Mode = RelativeExecutable | ShellCommand

  datatype WorkingDirectory = PackageRoot | Relative(path: string)

  /** A definition as the Hub stores it; absent optional fields are None. */
  datatype Definition = Definition(
    id: string, name: string,
    description: Option<string>, icon: Option<string>,
    role: string, interaction: string, lifecycle: string, command: string,
    traits: Option<seq<string>>, args: Option<seq<string>>,
    execution: Option<Mode>,
    workingDirectory: Option<WorkingDirectory>,
    environment: Option<seq<Entry>>,
    overrides: Option<seq<string>>, context: Option<seq<string>>,
    targetId: Option<string>)

  /** The text controls of the edit form with the lists they were filled from. */
  datatype Form = Form(
    id: string, name: string, description: string, icon: string,
    role: string, interaction: string, lifecycle: string, command: string,
    traits: string, args: string, executionMode: Mode,
    policy: string, path: string,
    environment: string, overrides: string, context: string, targetId: string,
    seededTraits: seq<string>, seededArgs: seq<string>, seededEnvironment: seq<Entry>,
    seededOverrides: seq<string>, seededContext: seq<string>)

  function ListOr(list: Option<seq<string>>): seq<string> { if list.Some? then list.value else [] }

  function EntriesOr(entries: Option<seq<Entry>>): seq<Entry> { if entries.Some? then entries.value else [] }

  function TextOr(text: Option<string>): string { if text.Some? then text.value else "" }

  /** The form of an accepted definition; None when it has no id. */
  function Open(d: Definition): Option<Form> {
    if d.id == "" then None
    else
      var wd := if d.workingDirectory.Some? then d.workingDirectory.value else PackageRoot;
      Some(Form(
        d.id, d.name, TextOr(d.description), TextOr(d.icon), d.role, d.interaction, d.lifecycle, d.command,
        JoinTokens(ListOr(d.traits)), JoinTokens(ListOr(d.args)),
        if d.execution == Some(ShellCommand) then ShellCommand else RelativeExecutable,
        if wd.Relative? then "relative" else "package_root", if wd.Relative? then wd.path else "",
        FormatEntries(EntriesOr(d.environment)), JoinTokens(ListOr(d.overrides)), JoinTokens(ListOr(d.context)),
        TextOr(d.targetId),
        ListOr(d.traits), ListOr(d.args), EntriesOr(d.environment), ListOr(d.overrides), ListOr(d.context)))
  }

  /** What the form builds: blank optional texts are left out, lists come from their seeds while untouched. */
  datatype Draft = Draft(
    id: string, name: string, description: Option<string>, icon: Option<string>,
    role: string, interaction: string, lifecycle: string, command: string,
    traits: seq<string>, args: seq<string>, execution: Mode,
    policy: string, path: Option<string>,
    environment: seq<Entry>, overrides: seq<string>, context: seq<string>, targetId: Option<string>)

  function Given(text: string): Option<string> { if Trim(text) == "" then None else Some(Trim(text)) }

  function Built(f: Form): Draft {
    var policy := Trim(f.policy);
    Draft(Trim(f.id), Trim(f.name), Given(f.description), Given(f.icon),
          Trim(f.role), Trim(f.interaction), Trim(f.lifecycle), Trim(f.command),
          TokensFromForm(f.traits, Some(f.seededTraits)), TokensFromForm(f.args, Some(f.seededArgs)), f.executionMode,
          if policy == "" then "package_root" else policy,
          if policy == "relative" then Some(Trim(f.path))
          else if policy == "" || policy == "package_root" then None
          else Given(f.path),
          EntriesFromForm(f.environment, Some(f.seededEnvironment)),
          TokensFromForm(f.overrides, Some(f.seededOverrides)), TokensFromForm(f.context, Some(f.seededContext)),
          Given(f.targetId))
  }

  function Listed(list: seq<string>): Option<seq<string>> { if list == [] then None else Some(list) }

  /** The wire projection: a definition without its required texts is refused, empty lists are absent. */
  function Project(d: Draft): Option<Definition> {
    if d.id == "" || d.name == "" || d.role == "" || d.interaction == "" || d.lifecycle == "" || d.command == "" then None
    else
      Some(Definition(
        d.id, d.name, d.description, d.icon, d.role, d.interaction, d.lifecycle, d.command,
        Listed(d.traits), Listed(d.args), Some(d.execution),
        if d.policy == "relative" && d.path.Some? && d.path.value != "" then Some(Relative(d.path.value))
        else if d.policy == "package_root" then Some(PackageRoot)
        else None,
        if d.environment == [] then None else Some(d.environment),
        Listed(d.overrides), Listed(d.context), d.targetId))
  }

  function Saved(d: Definition): Option<Definition> {
    var form := Open(d);
    if form.None? then None else Project(Built(form.value))
  }

  // ---------------------------------------------------------------------------
  // The round trip.
  // ---------------------------------------------------------------------------

  /** The stated defaults: blank optional texts and empty lists mean absent, an absent mode is a relative
      executable and an absent working directory the package root. */
  function Normal(d: Definition): Definition {
    d.(description := if TextOr(d.description) == "" || Blank(TextOr(d.description)) then None else d.description,
       icon := if TextOr(d.icon) == "" || Blank(TextOr(d.icon)) then None else d.icon,
       targetId := if TextOr(d.targetId) == "" || Blank(TextOr(d.targetId)) then None else d.targetId,
       traits := Listed(ListOr(d.traits)), args := Listed(ListOr(d.args)),
       overrides := Listed(ListOr(d.overrides)), context := Listed(ListOr(d.context)),
       environment := if EntriesOr(d.environment) == [] then None else d.environment,
       execution := Some(if d.execution == Some(ShellCommand) then ShellCommand else RelativeExecutable),
       workingDirectory := Some(if d.workingDirectory.Some? then d.workingDirectory.value else PackageRoot))
  }

  /** An optional text that saving gives back: absent, blank, or without outer white space. */
  predicate Kept(text: Option<string>) { text.None? || Blank(text.value) || Trimmed(text.value) }

  predicate TrimmedDefinition(d: Definition) {
    && Trimmed(d.id) && Trimmed(d.name) && Trimmed(d.role) && Trimmed(d.interaction) && Trimmed(d.lifecycle)
    && Trimmed(d.command) && Kept(d.description) && Kept(d.icon) && Kept(d.targetId)
  }

  /** A path that survives: the projection drops a relative directory without one. */
  predicate PathKept(d: Definition) {
    d.workingDirectory.Some? && d.workingDirectory.value.Relative? ==>
      d.workingDirectory.value.path != "" && Trimmed(d.workingDirectory.value.path)
  }

  /** The texts the Hub requires. */
  predicate Complete(d: Definition) {
    d.id != "" && d.name != "" && d.role != "" && d.interaction != "" && d.lifecycle != "" && d.command != ""
  }

  lemma GivenIff(text: Option<string>)
    ensures Given(TextOr(text)) == (if TextOr(text) == "" || Blank(TextOr(text)) then None else text) <==> Kept(text)
  {
    assert Trim("") == "";
  }

  lemma Policies()
    ensures Trim("relative") == "relative" && Trim("package_root") == "package_root"
  {
    TrimEnds("relative");
    TrimEnds("package_root");
  }

  /** An untouched form builds the lists it was opened with, whatever their entries hold. */
  lemma SeedsSurvive(d: Definition)
    requires d.id != ""
    ensures var b := Built(Open(d).value);
      && b.traits == ListOr(d.traits) && b.args == ListOr(d.args) && b.overrides == ListOr(d.overrides)
      && b.context == ListOr(d.context) && b.environment == EntriesOr(d.environment)
  {
  }

  /** The form still carries the lists it was opened with. */
  predicate SeededFrom(f: Form, d: Definition) {
    && f.seededTraits == ListOr(d.traits) && f.seededArgs == ListOr(d.args) && f.seededEnvironment == EntriesOr(d.environment)
    && f.seededOverrides == ListOr(d.overrides) && f.seededContext == ListOr(d.context)
  }

  /** A list is kept while its text is the one it was opened with; an edited text gives tokens only. */
  ghost predicate ListKept(text: string, before: string, saved: seq<string>, list: seq<string>) {
    if text == before then saved == list else Tokens(saved)
  }

  /** Editing the other controls changes no list whose text was left alone. */
  lemma EditsKeepOtherLists(d: Definition, edited: Form)
    requires d.id != "" && SeededFrom(edited, d)
    ensures var open, saved := Open(d).value, Built(edited);
      && ListKept(edited.traits, open.traits, saved.traits, ListOr(d.traits))
      && ListKept(edited.args, open.args, saved.args, ListOr(d.args))
      && ListKept(edited.overrides, open.overrides, saved.overrides, ListOr(d.overrides))
      && ListKept(edited.context, open.context, saved.context, ListOr(d.context))
      && if edited.environment == open.environment then saved.environment == EntriesOr(d.environment) else AllCarried(saved.environment)
  {
    hide ParseTokens, ParseEntries, JoinTokens, FormatEntries, Tokens, AllCarried, Trim;
    ParsedAreTokens(edited.traits);
    ParsedAreTokens(edited.args);
    ParsedAreTokens(edited.overrides);
    ParsedAreTokens(edited.context);
    ParsedAreCarried(edited.environment);
  }

  lemma WorkingDirectorySaved(d: Definition)
    requires d.id != ""
    ensures var b := Built(Open(d).value);
      var wd := if d.workingDirectory.Some? then d.workingDirectory.value else PackageRoot;
      && (wd.PackageRoot? ==> b.policy == "package_root" && b.path.None?)
      && (wd.Relative? ==> b.policy == "relative" && b.path == Some(Trim(wd.path)))
  {
    hide Trim;
    Policies();
  }

  /** Opening and saving a complete definition gives it back, up to the stated defaults, exactly when its
      texts carry no outer white space and a relative working directory has a path; arguments and
      environment values may hold anything. */
  lemma EditRoundTripIff(d: Definition)
    requires Complete(d)
    ensures Saved(d) == Some(Normal(d)) <==> TrimmedDefinition(d) && PathKept(d)
  {
    hide Trim, JoinTokens, FormatEntries, ParseTokens, ParseEntries, TokensFromForm, EntriesFromForm;
    SeedsSurvive(d);
    WorkingDirectorySaved(d);
    GivenIff(d.description);
    GivenIff(d.icon);
    GivenIff(d.targetId);
  }
}
