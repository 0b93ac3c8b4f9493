/**
 * The learned-user profile ("long term memory") of the response service:
 * the memory tool's read-modify-write update and the dossier block that is
 * injected into the system prompt (services/geminiService.ts).
 * The stored profile is passed in and the profile to store is passed out;
 * local storage itself is not part of this model.
 */
module ProfileMemory {
  import opened Types
  import opened JsStrings

  /** The profile used when nothing is stored yet. */
  function DefaultProfile(): (p: UserProfile)
    ensures !HasDossierData(p)
    ensures p.name == None && p.communicationStyle == "Neutral"
  {
    UserProfile(None, [], "Neutral", [], [], [])
  }

  /** `Array.prototype.indexOf`: the first index holding `item`, or -1. */
  function IndexOf(list: seq<string>, item: string): (r: int)
    ensures -1 <= r < |list|
    ensures r == -1 <==> item !in list
    ensures r >= 0 ==> list[r] == item && forall j :: 0 <= j < r ==> list[j] != item
  {
    if list == [] then -1
    else if list[0] == item then 0
    else
      var k := IndexOf(list[1..], item);
      if k == -1 then -1 else k + 1
  }

  /** The list with its first occurrence of `item` removed (the list itself if there is none). */
  function RemoveFirst(list: seq<string>, item: string): seq<string> {
    if list == [] then []
    else if list[0] == item then list[1..]
    else [list[0]] + RemoveFirst(list[1..], item)
  }

  /** What one memory action does to a list category: ADD and SET append an
      absent item, REMOVE drops the first occurrence, anything else keeps the list. */
  function UpdatedList(list: seq<string>, item: string, action: string): seq<string> {
    if action == "ADD" || action == "SET" then
      (if item in list then list else list + [item])
    else if action == "REMOVE" then RemoveFirst(list, item)
    else list
  }

  predicate IsListCategory(category: string) {
    category in {"technicalSkills", "personalFacts", "projectContexts", "preferences"}
  }

  function ListField(p: UserProfile, category: string): seq<string>
    requires IsListCategory(category)
  {
    if category == "technicalSkills" then p.technicalSkills
    else if category == "personalFacts" then p.personalFacts
    else if category == "projectContexts" then p.projectContexts
    else p.preferences
  }

  function WithListField(p: UserProfile, category: string, list: seq<string>): UserProfile
    requires IsListCategory(category)
  {
    if category == "technicalSkills" then p.(technicalSkills := list)
    else if category == "personalFacts" then p.(personalFacts := list)
    else if category == "projectContexts" then p.(projectContexts := list)
    else p.(preferences := list)
  }

  /** The profile after one memory-tool call. Scalars are overwritten whatever
      the action; an unknown category leaves the profile as it was. */
  function UpdatedProfile(p: UserProfile, category: string, item: string, action: string): UserProfile {
    if category == "name" then p.(name := Some(item))
    else if category == "communicationStyle" then p.(communicationStyle := item)
    else if IsListCategory(category) then
      WithListField(p, category, UpdatedList(ListField(p, category), item, action))
    else p
  }

  /** The text the memory tool reports back to the model. */
  function UpdateSummary(category: string, item: string, action: string): string {
    "Profile updated: [" + category + "] " + action + " \"" + item + "\""
  }

  /** `updateProfileMemory`: edits the loaded profile's list in place (push / splice)
      and returns the profile to store together with the summary text. */
  method UpdateProfileMemory(stored: UserProfile, category: string, item: string, action: string)
    returns (saved: UserProfile, summary: string)
    ensures saved == UpdatedProfile(stored, category, item, action)
    ensures summary == UpdateSummary(category, item, action)
  {
    saved := stored;
    if category == "name" {
      saved := saved.(name := Some(item));
    } else if category == "communicationStyle" {
      saved := saved.(communicationStyle := item);
    } else if IsListCategory(category) {
      var list := ListField(saved, category);
      if action == "ADD" && item !in list {
        list := list + [item];
      } else if action == "REMOVE" {
        var idx := IndexOf(list, item);
        if idx > -1 {
          RemoveFirstIsSplice(list, item);
        } else {
          RemoveFirstMultiset(list, item);
        }
        if idx > -1 {
          list := list[..idx] + list[idx + 1..];
        }
      } else if action == "SET" {
        if item !in list {
          list := list + [item];
        }
      }
      saved := WithListField(saved, category, list);
    }
    summary := UpdateSummary(category, item, action);
  }

  // ---------------------------------------------------------------------------
  // Properties of the list update.

  predicate NoDuplicates(list: seq<string>) {
    forall i, j :: 0 <= i < j < |list| ==> list[i] != list[j]
  }

  /** Splicing index `k` out of the tail, then putting the head back, splices index `k + 1` out of the list. */
  lemma SpliceBehindHead<T>(list: seq<T>, k: nat)
    requires k + 1 < |list|
    ensures [list[0]] + (list[1..][..k] + list[1..][k + 1..]) == list[..k + 1] + list[k + 2..]
  {
    var l := [list[0]] + (list[1..][..k] + list[1..][k + 1..]);
    var r := list[..k + 1] + list[k + 2..];
    assert |l| == |r|;
    forall i | 0 <= i < |l|
      ensures l[i] == r[i]
    {
      if i == 0 {
      } else if i <= k {
        assert l[i] == list[i];
      } else {
        assert l[i] == list[i + 1];
      }
    }
  }

  /** Removing a present item is the splice at `indexOf`. */
  lemma {:induction false} RemoveFirstIsSplice(list: seq<string>, item: string)
    requires item in list
    ensures RemoveFirst(list, item) == list[..IndexOf(list, item)] + list[IndexOf(list, item) + 1..]
  {
    if list[0] == item {
      assert list[..0] + list[1..] == list[1..];
    } else {
      var tail := list[1..];
      assert item in tail by {
        assert list == [list[0]] + tail;
      }
      var k := IndexOf(tail, item);
      assert IndexOf(list, item) == k + 1;
      assert RemoveFirst(list, item) == list[..k + 1] + list[k + 2..] by {
        RemoveFirstIsSplice(tail, item);
        SpliceBehindHead(list, k);
      }
    }
  }

  lemma {:induction false} RemoveFirstMultiset(list: seq<string>, item: string)
    ensures multiset(RemoveFirst(list, item)) == multiset(list) - multiset{item}
    ensures item !in list ==> RemoveFirst(list, item) == list
  {
    if list != [] {
      assert list == [list[0]] + list[1..];
      if list[0] != item {
        RemoveFirstMultiset(list[1..], item);
      }
    }
  }

  /** ADD twice is ADD once, and the item is then present exactly as often as before, or once. */
  lemma AddIdempotent(list: seq<string>, item: string)
    ensures UpdatedList(UpdatedList(list, item, "ADD"), item, "ADD") == UpdatedList(list, item, "ADD")
    ensures item in UpdatedList(list, item, "ADD")
    ensures multiset(UpdatedList(list, item, "ADD"))[item] ==
      if item in list then multiset(list)[item] else 1
  {
  }

  /** SET on a list category behaves exactly like ADD. */
  lemma SetIsAdd(list: seq<string>, item: string)
    ensures UpdatedList(list, item, "SET") == UpdatedList(list, item, "ADD")
  {
  }

  /** REMOVE: an absent item leaves the list unchanged; a present one loses its first occurrence. */
  lemma RemoveSemantics(list: seq<string>, item: string)
    ensures item !in list ==> UpdatedList(list, item, "REMOVE") == list
    ensures item in list ==>
      var i := IndexOf(list, item);
      list[i] == item && (forall j :: 0 <= j < i ==> list[j] != item) &&
      UpdatedList(list, item, "REMOVE") == list[..i] + list[i + 1..]
    ensures multiset(UpdatedList(list, item, "REMOVE")) == multiset(list) - multiset{item}
  {
    if item in list {
      RemoveFirstIsSplice(list, item);
    }
    RemoveFirstMultiset(list, item);
  }

  /** Removing a just-added fact restores the list it was added to. */
  lemma {:induction false} RemoveUndoesAdd(list: seq<string>, item: string)
    requires item !in list
    ensures UpdatedList(UpdatedList(list, item, "ADD"), item, "REMOVE") == list
  {
    if list != [] {
      assert (list + [item])[1..] == list[1..] + [item];
      RemoveUndoesAdd(list[1..], item);
    }
  }

  lemma {:induction false} RemoveFirstKeepsElements(list: seq<string>, item: string)
    ensures forall x :: x in RemoveFirst(list, item) ==> x in list
    ensures NoDuplicates(list) ==> NoDuplicates(RemoveFirst(list, item))
  {
    if list != [] && list[0] != item {
      RemoveFirstKeepsElements(list[1..], item);
      var rest := RemoveFirst(list[1..], item);
      if NoDuplicates(list) {
        assert NoDuplicates(list[1..]) by {
          forall i, j | 0 <= i < j < |list[1..]| ensures list[1..][i] != list[1..][j] {
            assert list[1..][i] == list[i + 1] && list[1..][j] == list[j + 1];
          }
        }
        assert list[0] !in list[1..] by {
          forall j | 0 <= j < |list[1..]| ensures list[1..][j] != list[0] {
            assert list[1..][j] == list[j + 1];
          }
        }
        assert list[0] !in rest;
      }
    }
  }

  /** Every memory action keeps a duplicate-free list duplicate-free. */
  lemma UpdatePreservesNoDuplicates(list: seq<string>, item: string, action: string)
    requires NoDuplicates(list)
    ensures NoDuplicates(UpdatedList(list, item, action))
  {
    RemoveFirstKeepsElements(list, item);
  }

  // ---------------------------------------------------------------------------
  // Properties of the profile update.

  /** `name` and `communicationStyle` are overwritten whatever the action, and nothing else changes. */
  lemma ScalarCategoriesOverwrite(p: UserProfile, item: string, action: string)
    ensures UpdatedProfile(p, "name", item, action) == p.(name := Some(item))
    ensures UpdatedProfile(p, "communicationStyle", item, action) == p.(communicationStyle := item)
  {
  }

  /** A list category changes only that list, by the list rule. */
  lemma ListCategoryChangesOnlyItsList(p: UserProfile, category: string, item: string, action: string)
    requires IsListCategory(category)
    ensures var q := UpdatedProfile(p, category, item, action);
      && q.name == p.name && q.communicationStyle == p.communicationStyle
      && ListField(q, category) == UpdatedList(ListField(p, category), item, action)
      && (forall c :: IsListCategory(c) && c != category ==> ListField(q, c) == ListField(p, c))
  {
  }

  /** A category that is not a profile field leaves the profile as it was. */
  lemma UnknownCategoryNoChange(p: UserProfile, category: string, item: string, action: string)
    requires category != "name" && category != "communicationStyle" && !IsListCategory(category)
    ensures UpdatedProfile(p, category, item, action) == p
  {
  }

  // ---------------------------------------------------------------------------
  // The dossier.

  /** The truthiness test of the dossier: a non-empty name or a non-empty
      skills, facts or preferences list. */
  predicate HasDossierData(p: UserProfile) {
    || (p.name.Some? && p.name.value != "")
    || p.technicalSkills != []
    || p.personalFacts != []
    || p.preferences != []
  }

  function NameOrEmpty(name: Option<string>): string {
    if name.Some? then name.value else ""
  }

  function Listed(list: seq<string>): string {
    OrElse(Join(list, ", "), "None recorded")
  }

  const DossierBanner: string := "\n\n\n=== \U{1F9E0} USER DOSSIER (LONG TERM MEMORY) ===\n"

  /** `buildContextDossier`: empty when the profile holds no data, otherwise the
      banner followed by one line per field. */
  function BuildContextDossier(p: UserProfile): (d: string)
    ensures d == "" <==> !HasDossierData(p)
    ensures d != "" ==> StartsWith(d, DossierBanner)
  {
    if !HasDossierData(p) then ""
    else
      PrefixOfConcat(DossierBanner, DossierLines(p));
      DossierBanner + DossierLines(p)
  }

  /** The dossier's lines after its banner: the name line, then the others. */
  function DossierLines(p: UserProfile): string {
    NameLine(p) + DossierDetails(p)
  }

  function NameLine(p: UserProfile): string {
    "NAME: " + OrElse(NameOrEmpty(p.name), "Unknown") + "\n"
  }

  function DossierDetails(p: UserProfile): string {
    "COMMUNICATION PREFERENCE: " + p.communicationStyle + "\n"
    + "KNOWN SKILLS: " + Listed(p.technicalSkills) + "\n"
    + "PREFERENCES: " + Listed(p.preferences) + "\n"
    + "CURRENT PROJECTS: " + Listed(p.projectContexts) + "\n"
    + "PERSONAL FACTS: " + Listed(p.personalFacts) + "\n"
    + "==========================================\n"
    + "*Instruction: Use the data above to personalize your response. "
    + "Do not explicitly mention \"I read your dossier\" unless relevant.*\n"
  }

  /** Project contexts and the communication style alone never produce a dossier. */
  lemma ProjectsAndStyleAloneGiveNoDossier(p: UserProfile, projects: seq<string>, style: string)
    requires !HasDossierData(p)
    ensures BuildContextDossier(p.(projectContexts := projects, communicationStyle := style)) == ""
  {
  }

  /** A profile with a non-empty name has a dossier, and its first line after the banner states the name. */
  lemma NamedProfileHasDossier(p: UserProfile)
    requires p.name.Some? && p.name.value != ""
    ensures var d := BuildContextDossier(p);
      d != "" && OccursAt(d, "NAME: " + p.name.value + "\n", |DossierBanner|)
  {
    InfixOfConcat(DossierBanner, NameLine(p), DossierDetails(p));
  }

  /** Learning a name is enough to produce a dossier, and the dossier states it. */
  lemma LearnedNameInDossier(p: UserProfile, name: string, action: string)
    requires name != ""
    ensures var d := BuildContextDossier(UpdatedProfile(p, "name", name, action));
      d != "" && OccursAt(d, "NAME: " + name + "\n", |DossierBanner|)
  {
    ScalarCategoriesOverwrite(p, name, action);
    NamedProfileHasDossier(p.(name := Some(name)));
  }
}
