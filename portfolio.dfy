/** The portfolio page (`PortfolioHomePage`): which section the sidebar marks
    as active, given which sections are at least half on screen. The
    intersection observers are inputs. */
module Portfolio {
  import opened Common

  /** The section ids, top of the page first. */
  const Sections: seq<string> := ["hero", "profile", "skill", "education", "project", "experience", "contact"]

  /** Which sections are in view. */
  datatype InView = InView(hero: bool, profile: bool, skill: bool, education: bool,
                           project: bool, experience: bool, contact: bool)

  /** Whether the section with the given id is in view. */
  predicate Shows(v: InView, id: string) {
    || (id == "hero" && v.hero) || (id == "profile" && v.profile) || (id == "skill" && v.skill)
    || (id == "education" && v.education) || (id == "project" && v.project)
    || (id == "experience" && v.experience) || (id == "contact" && v.contact)
  }

  /** The effect's if/else-if chain: the section it selects, or `None` when
      no branch fires. */
  function Pick(v: InView): (r: Option<string>)
    ensures r.Some? ==> r.value in Sections && Shows(v, r.value)
  {
    if v.contact then Some("contact")
    else if v.experience then Some("experience")
    else if v.project then Some("project")
    else if v.education then Some("education")
    else if v.skill then Some("skill")
    else if v.profile then Some("profile")
    else if v.hero then Some("hero")
    else None
  }

  /** No section below the `k`th one is in view. */
  predicate LowestShown(v: InView, k: int) {
    forall i :: 0 <= i < |Sections| && k < i ==> !Shows(v, Sections[i])
  }

  /** The chain selects the visible section lowest on the page: it is in
      view and no section below it is; and it selects nothing exactly when
      no section is in view. */
  lemma PickIsLowestVisible(v: InView)
    ensures Pick(v).None? <==> forall i :: 0 <= i < |Sections| ==> !Shows(v, Sections[i])
    ensures Pick(v).Some? ==>
      exists k :: 0 <= k < |Sections| && Sections[k] == Pick(v).value && LowestShown(v, k)
  {
    if Pick(v).None? {
      forall i | 0 <= i < |Sections|
        ensures !Shows(v, Sections[i])
      {
      }
    } else {
      var k := if v.contact then 6 else if v.experience then 5 else if v.project then 4
        else if v.education then 3 else if v.skill then 2 else if v.profile then 1 else 0;
      assert Sections[k] == Pick(v).value && LowestShown(v, k);
    }
  }

  class PortfolioPage {
    var activeSection: string

    /** The active section is always one of the section ids. */
    predicate Valid()
      reads this
    {
      activeSection in Sections
    }

    constructor ()
      ensures activeSection == "hero" && Valid()
    {
      activeSection := "hero";
    }

    /** The effect run when any section's visibility changes: the section
      the chain selects becomes active; with nothing in view the active
      section stays as it was. */
    method OnInViewChange(v: InView)
      requires Valid()
      modifies this
      ensures Valid()
      ensures Pick(v).Some? ==> activeSection == Pick(v).value
      ensures Pick(v).None? ==> activeSection == old(activeSection)
      ensures Shows(v, activeSection) || activeSection == old(activeSection)
    {
      if v.contact {
        activeSection := "contact";
      } else if v.experience {
        activeSection := "experience";
      } else if v.project {
        activeSection := "project";
      } else if v.education {
        activeSection := "education";
      } else if v.skill {
        activeSection := "skill";
      } else if v.profile {
        activeSection := "profile";
      } else if v.hero {
        activeSection := "hero";
      }
    }
  }
}
