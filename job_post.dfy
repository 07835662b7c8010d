/** The post-job page's state: the form fields by name, and the skill editor. */
module JobPost {
  import opened Skills

  /** The seven fields of `formData`. */
  const FormFields: set<string> := {"title", "description", "location", "type", "rate", "duration", "category"}

  /** `formData`, an object from field name to text. */
  type Form = map<string, string>

  datatype PostJobState = PostJobState(form: Form, editor: SkillEditor)

  /** The page's initial state: all seven fields empty, no skills, empty input. */
  function InitialPostJob(): (s: PostJobState)
    ensures s.form.Keys == FormFields
    ensures forall name :: name in s.form ==> s.form[name] == ""
    ensures s.editor.skills == [] && s.editor.input == ""
  {
    PostJobState(map name | name in FormFields :: "", SkillEditor([], ""))
  }

  /** `handleChange` and `handleSelectChange`: `{...prev, [name]: value}`. */
  function SetField(form: Form, name: string, value: string): (r: Form)
    ensures name in r && r[name] == value
    ensures r.Keys == form.Keys + {name}
    ensures forall other :: other in form && other != name ==> r[other] == form[other]
  {
    form[name := value]
  }

  // ---------------------------------------------------------------------------
  // Properties

  /** Setting one of the seven fields keeps exactly the seven fields. */
  lemma SetFieldKeepsFields(form: Form, name: string, value: string)
    requires form.Keys == FormFields && name in FormFields
    ensures SetField(form, name, value).Keys == FormFields
  {
  }

  /** The last write to a field wins. */
  lemma SetFieldOverwrites(form: Form, name: string, a: string, b: string)
    ensures SetField(SetField(form, name, a), name, b) == SetField(form, name, b)
  {
  }

  /** Writes to different fields commute. */
  lemma SetFieldsCommute(form: Form, n1: string, v1: string, n2: string, v2: string)
    requires n1 != n2
    ensures SetField(SetField(form, n1, v1), n2, v2) == SetField(SetField(form, n2, v2), n1, v1)
  {
  }
}
