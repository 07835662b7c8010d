/** The skill list editor that the profile page and the post-job page both have: a
    list of skills and a text input, with `addSkill` and `removeSkill`. */
module Skills {
  import opened Js
  import opened Seqs

  datatype SkillEditor = SkillEditor(skills: seq<string>, input: string)

  /** The profile page's initial skills. */
  const ProfileSkills: seq<string> := ["Plumbing", "Pipe Fitting", "Water Heater Installation", "Leak Repair"]

  /** `addSkill`: the trimmed input is appended and the input cleared when it is not
      blank and not already listed; otherwise nothing changes. */
  function AddSkill(e: SkillEditor): (r: SkillEditor)
    ensures r.skills == e.skills || r.skills == e.skills + [Trim(e.input)]
    ensures r.skills != e.skills <==> !IsBlank(e.input) && Trim(e.input) !in e.skills
    ensures r.skills != e.skills ==> r.input == ""
    ensures r.skills == e.skills ==> r == e
  {
    var skill := Trim(e.input);
    if skill != "" && skill !in e.skills then SkillEditor(e.skills + [skill], "") else e
  }

  /** `removeSkill`: every occurrence of `skill` goes, the rest stay in order. */
  function RemoveSkill(skills: seq<string>, skill: string): (r: seq<string>)
    ensures IsSubsequence(r, skills)
    ensures forall s :: s in r <==> s in skills && s != skill
    ensures forall s :: multiset(r)[s] == if s != skill then multiset(skills)[s] else 0
  {
    Filter(skills, s => s != skill)
  }

  // ---------------------------------------------------------------------------
  // Properties

  /** The profile page starts without duplicates (the post-job page starts empty). */
  lemma ProfileSkillsDistinct()
    ensures NoDuplicates(ProfileSkills)
  {
  }

  /** Adding keeps the list free of duplicates. */
  lemma {:induction false} AddSkillKeepsDistinct(e: SkillEditor)
    requires NoDuplicates(e.skills)
    ensures NoDuplicates(AddSkill(e).skills)
  {
    var r := AddSkill(e);
    if r.skills != e.skills {
      var s := Trim(e.input);
      forall i, j | 0 <= i < j < |r.skills| ensures r.skills[i] != r.skills[j] {
        if j == |e.skills| {
          assert r.skills[j] == s && r.skills[i] == e.skills[i];
        } else {
          assert r.skills[i] == e.skills[i] && r.skills[j] == e.skills[j];
        }
      }
    }
  }

  /** Removing keeps the list free of duplicates. */
  lemma {:induction false} RemoveSkillKeepsDistinct(skills: seq<string>, skill: string)
    requires NoDuplicates(skills)
    ensures NoDuplicates(RemoveSkill(skills, skill))
  {
    FilterNoDuplicates(skills, s => s != skill);
  }

  /** Adding twice in a row is adding once: a successful add clears the input. */
  lemma AddSkillIdempotent(e: SkillEditor)
    ensures AddSkill(AddSkill(e)) == AddSkill(e)
  {
  }

  /** Removing a skill that is not listed changes nothing. */
  lemma {:induction false} RemoveAbsentSkill(skills: seq<string>, skill: string)
    requires skill !in skills
    ensures RemoveSkill(skills, skill) == skills
  {
    FilterAll(skills, s => s != skill);
  }

  /** Adding a new skill and then removing it gives back the original list. */
  lemma {:induction false} AddThenRemoveRestores(e: SkillEditor)
    requires AddSkill(e).skills != e.skills
    ensures RemoveSkill(AddSkill(e).skills, Trim(e.input)) == e.skills
  {
    var skill := Trim(e.input);
    var p := (s: string) => s != skill;
    FilterAppend(e.skills, [skill], p);
    FilterAll(e.skills, p);
    assert Filter([skill], p) == [];
  }
}
