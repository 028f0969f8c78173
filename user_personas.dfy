/** User personas: the persona list, the list-field editor and the Markdown exports. */
module UserPersonas {
  import opened Optional
  import opened Text
  import opened Lists

  /** Everything a persona holds besides its id; the add form edits one of these. */
  datatype Profile = Profile(
    name: string,
    age: string,
    occupation: string,
    income: string,
    location: string,
    education: string,
    bio: string,
    goals: seq<string>,
    frustrations: seq<string>,
    motivations: seq<string>,
    brands: seq<string>,
    photo: string)

  datatype Persona = Persona(id: string, profile: Profile)

  /** The state the add form starts from and is reset to: empty text, one empty entry per list. */
  const BlankProfile := Profile("", "", "", "", "", "", "", [""], [""], [""], [""], "")

  /** The four list fields the editor can grow, change and shrink. */
  datatype ListField = Goals | Frustrations | Motivations | Brands

  function GetList(pr: Profile, f: ListField): seq<string> {
    match f
    case Goals => pr.goals
    case Frustrations => pr.frustrations
    case Motivations => pr.motivations
    case Brands => pr.brands
  }

  function SetList(pr: Profile, f: ListField, l: seq<string>): (r: Profile)
    ensures GetList(r, f) == l
    ensures forall g :: g != f ==> GetList(r, g) == GetList(pr, g)
    ensures r == pr.(goals := r.goals, frustrations := r.frustrations, motivations := r.motivations, brands := r.brands)
  {
    match f
    case Goals => pr.(goals := l)
    case Frustrations => pr.(frustrations := l)
    case Motivations => pr.(motivations := l)
    case Brands => pr.(brands := l)
  }

  // ---------------------------------------------------------------------------------------------
  // The persona list

  function Filled(): string -> bool {
    (s: string) => Trim(s) != ""
  }

  /** `list.filter(x => x.trim() !== '')`: the entries that are not blank, in order. */
  function NonBlank(l: seq<string>): (r: seq<string>)
    ensures forall i :: 0 <= i < |r| ==> !IsBlank(r[i]) && r[i] in l
    ensures forall i :: 0 <= i < |l| && !IsBlank(l[i]) ==> l[i] in r
    ensures forall x :: multiset(r)[x] == if IsBlank(x) then 0 else multiset(l)[x]
  {
    forall s ensures Filled()(s) <==> !IsBlank(s) {
      BlankIffTrimEmpty(s);
    }
    FilterMultiset(l, Filled());
    Filter(l, Filled())
  }

  lemma NonBlankKeepsOrder(l: seq<string>)
    ensures IsSubseq(NonBlank(l), l)
  {
    FilterIsSubseq(l, Filled());
  }

  /** The profile as it is stored: the four lists without their blank entries. */
  function Cleaned(pr: Profile): (r: Profile)
    ensures forall f :: GetList(r, f) == NonBlank(GetList(pr, f))
    ensures r == pr.(goals := r.goals, frustrations := r.frustrations, motivations := r.motivations, brands := r.brands)
  {
    pr.(goals := NonBlank(pr.goals), frustrations := NonBlank(pr.frustrations),
        motivations := NonBlank(pr.motivations), brands := NonBlank(pr.brands))
  }

  /** Cleaning a cleaned profile changes nothing. */
  lemma CleanedIdempotent(pr: Profile)
    ensures Cleaned(Cleaned(pr)) == pr.(goals := NonBlank(pr.goals), frustrations := NonBlank(pr.frustrations),
                                        motivations := NonBlank(pr.motivations), brands := NonBlank(pr.brands))
    ensures Cleaned(Cleaned(pr)) == Cleaned(pr)
  {
    FilterAll(NonBlank(pr.goals), Filled());
    FilterAll(NonBlank(pr.frustrations), Filled());
    FilterAll(NonBlank(pr.motivations), Filled());
    FilterAll(NonBlank(pr.brands), Filled());
  }

  function PersonaId(now: nat): string {
    StampId("persona", now)
  }

  /**
   * `handleAddPersona`: a blank name changes nothing; otherwise the cleaned form, with an id from the
   * clock reading, is appended and the form is reset.
   */
  function AddPersona(ps: seq<Persona>, form: Profile, now: nat): (r: (seq<Persona>, Profile))
    ensures IsBlank(form.name) ==> r == (ps, form)
    ensures !IsBlank(form.name) ==>
      r.1 == BlankProfile && |r.0| == |ps| + 1 && r.0[..|ps|] == ps
      && r.0[|ps|] == Persona(PersonaId(now), Cleaned(form))
  {
    BlankIffTrimEmpty(form.name);
    if Trim(form.name) == "" then (ps, form)
    else (ps + [Persona(PersonaId(now), Cleaned(form))], BlankProfile)
  }

  /**
   * `handleUpdatePersona`: with a persona open whose name is not blank, every persona with its id is
   * replaced by its cleaned copy; otherwise nothing changes.
   */
  function UpdatePersona(ps: seq<Persona>, current: Option<Persona>): (r: seq<Persona>)
    ensures current.None? || IsBlank(current.value.profile.name) ==> r == ps
    ensures |r| == |ps|
    ensures current.Some? && !IsBlank(current.value.profile.name) ==> forall i :: 0 <= i < |ps| ==>
      (ps[i].id == current.value.id ==> r[i] == Persona(current.value.id, Cleaned(current.value.profile)))
      && (ps[i].id != current.value.id ==> r[i] == ps[i])
  {
    if current.None? then ps
    else
      BlankIffTrimEmpty(current.value.profile.name);
      if Trim(current.value.profile.name) == "" then ps
      else ReplacePersona(ps, Persona(current.value.id, Cleaned(current.value.profile)))
  }

  function ReplacePersona(ps: seq<Persona>, p: Persona): (r: seq<Persona>)
    ensures |r| == |ps|
    ensures forall i :: 0 <= i < |ps| ==> (ps[i].id == p.id ==> r[i] == p) && (ps[i].id != p.id ==> r[i] == ps[i])
  {
    seq(|ps|, i requires 0 <= i < |ps| => if ps[i].id == p.id then p else ps[i])
  }

  function OtherPersona(id: string): Persona -> bool {
    (p: Persona) => p.id != id
  }

  /** `handleDeletePersona`: drops the personas with the id and keeps the rest, in order. */
  function DeletePersona(ps: seq<Persona>, id: string): (r: seq<Persona>)
    ensures forall i :: 0 <= i < |r| ==> r[i].id != id && r[i] in ps
    ensures forall i :: 0 <= i < |ps| && ps[i].id != id ==> ps[i] in r
  {
    Filter(ps, OtherPersona(id))
  }

  lemma DeletePersonaKeepsOrder(ps: seq<Persona>, id: string)
    ensures IsSubseq(DeletePersona(ps, id), ps)
  {
    FilterIsSubseq(ps, OtherPersona(id));
  }

  /** Deleting a persona just added, under an id not used before, gives the list back. */
  lemma AddThenDeletePersona(ps: seq<Persona>, form: Profile, now: nat)
    requires !IsBlank(form.name)
    requires forall i :: 0 <= i < |ps| ==> ps[i].id != PersonaId(now)
    ensures DeletePersona(AddPersona(ps, form, now).0, PersonaId(now)) == ps
  {
    var added := Persona(PersonaId(now), Cleaned(form));
    FilterAppend(ps, [added], OtherPersona(PersonaId(now)));
    FilterAll(ps, OtherPersona(PersonaId(now)));
    assert Filter([added], OtherPersona(PersonaId(now))) == [];
  }

  // ---------------------------------------------------------------------------------------------
  // The list-field editor, on whichever profile is open (the add form or the persona being edited)

  /** `addListItem`: one empty entry goes at the end of the field; nothing else changes. */
  function AddListItem(pr: Profile, f: ListField): (r: Profile)
    ensures GetList(r, f) == GetList(pr, f) + [""]
    ensures r == SetList(pr, f, GetList(r, f))
  {
    SetList(pr, f, GetList(pr, f) + [""])
  }

  /** `updateListItem`: a copy of the field gets `value` at `index`; nothing else changes. */
  method UpdateListItem(pr: Profile, f: ListField, index: nat, value: string) returns (r: Profile)
    requires index < |GetList(pr, f)|
    ensures GetList(r, f) == GetList(pr, f)[index := value]
    ensures r == SetList(pr, f, GetList(r, f))
  {
    var items := AssignAt(GetList(pr, f), index, value);
    assert items == GetList(pr, f)[index := value];
    r := SetList(pr, f, items);
  }

  /** `removeListItem`: a copy of the field loses the entry at `index` (nothing, past the end); nothing else changes. */
  method RemoveListItem(pr: Profile, f: ListField, index: nat) returns (r: Profile)
    ensures GetList(r, f) == RemoveAt(GetList(pr, f), index)
    ensures r == SetList(pr, f, GetList(r, f))
  {
    var items := SpliceRemove(GetList(pr, f), index);
    r := SetList(pr, f, items);
  }

  /** Removing the entry just added gives the profile back. */
  lemma AddThenRemoveListItem(pr: Profile, f: ListField)
    ensures SetList(AddListItem(pr, f), f, RemoveAt(GetList(AddListItem(pr, f), f), |GetList(pr, f)|)) == pr
  {
    var l := GetList(pr, f);
    assert (l + [""])[..|l|] == l;
  }

  // ---------------------------------------------------------------------------------------------
  // Markdown exports

  function AgeLine(p: Profile): string {
    "**Age:** " + p.age + "\n"
  }

  function OccupationLine(p: Profile): string {
    "**Occupation:** " + p.occupation + "\n"
  }

  function IncomeLine(p: Profile): string {
    "**Income:** " + p.income + "\n"
  }

  function LocationLine(p: Profile): string {
    "**Location:** " + p.location + "\n"
  }

  function EducationLine(p: Profile): string {
    "**Education:** " + p.education + "\n\n"
  }

  /** The biography section; `level` is `##` in a single export and `###` in the all-personas file. */
  function BioSection(p: Profile, level: string): string {
    level + " Biography\n\n" + p.bio + "\n\n"
  }

  function BulletLines(l: seq<string>): seq<string> {
    seq(|l|, i requires 0 <= i < |l| => "- " + l[i] + "\n")
  }

  /** A heading followed by one `- entry` line per entry, in order. */
  function Bullets(heading: string, l: seq<string>): string {
    heading + Concat(BulletLines(l))
  }

  /** Everything after the title: five metadata lines, the biography and the four bullet sections. */
  function PersonaBody(p: Profile, level: string): string {
    AgeLine(p) + OccupationLine(p) + IncomeLine(p) + LocationLine(p) + EducationLine(p) + BioSection(p, level)
    + Bullets(level + " Goals\n\n", p.goals) + "\n"
    + Bullets(level + " Frustrations\n\n", p.frustrations) + "\n"
    + Bullets(level + " Motivations\n\n", p.motivations) + "\n"
    + Bullets(level + " Preferred Brands\n\n", p.brands)
  }

  /** The single-persona export. */
  function PersonaMd(p: Profile): string {
    "# " + p.name + " - User Persona\n\n" + PersonaBody(p, "##")
  }

  const Separator := "\n---\n\n"

  function EntryTitle(p: Profile): string {
    "## " + p.name + "\n\n"
  }

  /** One persona in the all-personas file: followed by the separator unless it is the last. */
  function AllEntry(p: Profile, last: bool): string {
    EntryTitle(p) + PersonaBody(p, "###") + (if last then "" else Separator)
  }

  function AllEntries(ps: seq<Persona>): seq<string> {
    seq(|ps|, i requires 0 <= i < |ps| => AllEntry(ps[i].profile, i == |ps| - 1))
  }

  /** The all-personas export. */
  function AllPersonasMd(ps: seq<Persona>): string {
    "# User Personas\n\n" + Concat(AllEntries(ps))
  }

  /** One bullet loop: the heading, then `- entry` per entry. */
  method AppendBullets(content0: string, heading: string, l: seq<string>) returns (content: string)
    ensures content == content0 + Bullets(heading, l)
  {
    content := content0 + heading;
    ghost var before := content;
    ghost var lines := BulletLines(l);
    for k := 0 to |l|
      invariant content == before + Concat(lines[..k])
    {
      content := content + "- " + l[k] + "\n";
      assert lines[k] == "- " + l[k] + "\n";
      AppendAssoc(before, Concat(lines[..k]), "- " + l[k]);
      AppendAssoc(before, Concat(lines[..k]) + ("- " + l[k]), "\n");
      ConcatSnoc(lines, k);
    }
    assert lines[..|l|] == lines;
    AppendAssoc(content0, heading, Concat(lines));
  }

  /** The part both single and all-personas exports write for one persona after its title. */
  method AppendPersonaBody(content0: string, p: Profile, level: string) returns (content: string)
    ensures content == content0 + PersonaBody(p, level)
  {
    ghost var body := AgeLine(p);
    content := content0 + AgeLine(p);
    content := content + OccupationLine(p);
    AppendAssoc(content0, body, OccupationLine(p));
    body := body + OccupationLine(p);
    content := content + IncomeLine(p);
    AppendAssoc(content0, body, IncomeLine(p));
    body := body + IncomeLine(p);
    content := content + LocationLine(p);
    AppendAssoc(content0, body, LocationLine(p));
    body := body + LocationLine(p);
    content := content + EducationLine(p);
    AppendAssoc(content0, body, EducationLine(p));
    body := body + EducationLine(p);
    content := content + BioSection(p, level);
    AppendAssoc(content0, body, BioSection(p, level));
    body := body + BioSection(p, level);
    content := AppendBullets(content, level + " Goals\n\n", p.goals);
    AppendAssoc(content0, body, Bullets(level + " Goals\n\n", p.goals));
    body := body + Bullets(level + " Goals\n\n", p.goals);
    content := content + "\n";
    AppendAssoc(content0, body, "\n");
    body := body + "\n";
    content := AppendBullets(content, level + " Frustrations\n\n", p.frustrations);
    AppendAssoc(content0, body, Bullets(level + " Frustrations\n\n", p.frustrations));
    body := body + Bullets(level + " Frustrations\n\n", p.frustrations);
    content := content + "\n";
    AppendAssoc(content0, body, "\n");
    body := body + "\n";
    content := AppendBullets(content, level + " Motivations\n\n", p.motivations);
    AppendAssoc(content0, body, Bullets(level + " Motivations\n\n", p.motivations));
    body := body + Bullets(level + " Motivations\n\n", p.motivations);
    content := content + "\n";
    AppendAssoc(content0, body, "\n");
    body := body + "\n";
    content := AppendBullets(content, level + " Preferred Brands\n\n", p.brands);
    AppendAssoc(content0, body, Bullets(level + " Preferred Brands\n\n", p.brands));
    body := body + Bullets(level + " Preferred Brands\n\n", p.brands);
    assert body == PersonaBody(p, level);
  }

  /** `downloadPersona`: the Markdown text and the file name `name.toLowerCase().replace(/\s+/g, '-') + '-persona.md'`. */
  method DownloadPersona(p: Persona) returns (content: string, filename: string)
    ensures content == PersonaMd(p.profile)
    ensures filename == Slug(p.profile.name) + "-persona.md"
  {
    content := AppendPersonaBody("# " + p.profile.name + " - User Persona\n\n", p.profile, "##");
    filename := HyphenateSpaces(ToLower(p.profile.name)) + "-persona.md";
    LowerThenHyphenate(p.profile.name);
  }

  /** `copyPersonaToClipboard`: the same text as the download. */
  method CopyPersonaToClipboard(p: Persona) returns (content: string)
    ensures content == PersonaMd(p.profile)
  {
    content := AppendPersonaBody("# " + p.profile.name + " - User Persona\n\n", p.profile, "##");
  }

  /** One pass of the all-personas loop. */
  method AppendEntry(content0: string, p: Profile, last: bool) returns (content: string)
    ensures content == content0 + AllEntry(p, last)
  {
    content := content0 + EntryTitle(p);
    content := AppendPersonaBody(content, p, "###");
    AppendAssoc(content0, EntryTitle(p), PersonaBody(p, "###"));
    if !last {
      content := content + Separator;
      AppendAssoc(content0, EntryTitle(p) + PersonaBody(p, "###"), Separator);
    } else {
      assert EntryTitle(p) + PersonaBody(p, "###") + "" == EntryTitle(p) + PersonaBody(p, "###");
    }
  }

  /** `downloadAllPersonas`: every persona in list order, separated, under one title. */
  method DownloadAllPersonas(ps: seq<Persona>) returns (content: string, filename: string)
    ensures content == AllPersonasMd(ps)
    ensures filename == "user-personas.md"
  {
    content := "# User Personas\n\n";
    ghost var before := content;
    ghost var entries := AllEntries(ps);
    for index := 0 to |ps|
      invariant content == before + Concat(entries[..index])
    {
      content := AppendEntry(content, ps[index].profile, !(index < |ps| - 1));
      ConcatSnoc(entries, index);
      AppendAssoc(before, Concat(entries[..index]), entries[index]);
    }
    assert entries[..|ps|] == entries;
    filename := "user-personas.md";
  }

  /** Entry `k` of a bullet section has its line, after the entries before it. */
  lemma BulletInOrder(heading: string, l: seq<string>, k: nat)
    requires k < |l|
    ensures Bullets(heading, l) == heading + (Concat(BulletLines(l)[..k]) + ("- " + l[k] + "\n") + Concat(BulletLines(l)[k + 1..]))
  {
    ConcatAt(BulletLines(l), k);
  }

  /**
   * Persona `i` of the all-personas file follows the personas before it; the separator comes after it
   * exactly when another persona follows, so it never ends the file.
   */
  lemma SeparatorsBetween(ps: seq<Persona>, i: nat)
    requires i < |ps|
    ensures AllPersonasMd(ps)
      == "# User Personas\n\n" + (Concat(AllEntries(ps)[..i]) + AllEntries(ps)[i] + Concat(AllEntries(ps)[i + 1..]))
    ensures i < |ps| - 1 ==>
      AllEntries(ps)[i] == EntryTitle(ps[i].profile) + PersonaBody(ps[i].profile, "###") + Separator
    ensures i == |ps| - 1 ==>
      AllEntries(ps)[i] == EntryTitle(ps[i].profile) + PersonaBody(ps[i].profile, "###") + ""
  {
    ConcatAt(AllEntries(ps), i);
  }
}
