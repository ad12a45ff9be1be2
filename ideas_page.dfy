/**
 * What the ideas page derives from the store: the tag list, the visible
 * ideas (search, archive view and tag filter, then pinned first and most
 * recent first), the comma-separated tag field, and the drafts and patches
 * built by the add and edit forms.
 */
module IdeasPage {
  import opened Wrappers
  import Seqs
  import Text
  import Ideas

  /** The tag lists of the ideas, in store order. */
  function TagLists(ideas: seq<Ideas.Idea>): seq<seq<string>> {
    seq(|ideas|, i requires 0 <= i < |ideas| => ideas[i].tags)
  }

  /** `allTags`: every tag in use, once each, in order of first use. */
  function AllTags(ideas: seq<Ideas.Idea>): seq<string> {
    Seqs.Dedup(Seqs.Flatten(TagLists(ideas)))
  }

  /** The tag chips above the list: the first five tags in use. */
  function TagChips(ideas: seq<Ideas.Idea>): seq<string> {
    Seqs.Take(AllTags(ideas), 5)
  }

  predicate MatchesSearch(i: Ideas.Idea, query: string) {
    Text.IncludesIgnoringCase(i.title, query) || Text.IncludesIgnoringCase(i.content, query)
  }

  /** The filter callback of `filteredIdeas`. */
  function Shown(query: string, showArchived: bool, tag: string): Ideas.Idea -> bool {
    i => MatchesSearch(i, query) && (if showArchived then i.archived else !i.archived)
         && (tag == "all" || tag in i.tags)
  }

  /** The sort callback: pinned ideas first, then the most recently updated. */
  function CompareIdeas(a: Ideas.Idea, b: Ideas.Idea): int {
    if a.pinned != b.pinned then (if a.pinned then -1 else 1)
    else b.updatedAt - a.updatedAt
  }

  function IdeaOrder(): (Ideas.Idea, Ideas.Idea) -> int {
    (a, b) => CompareIdeas(a, b)
  }

  /** `filteredIdeas`. */
  function FilteredIdeas(ideas: seq<Ideas.Idea>, query: string, showArchived: bool, tag: string): seq<Ideas.Idea> {
    Seqs.SortBy(Seqs.Filter(ideas, Shown(query, showArchived, tag)), IdeaOrder())
  }

  function TrimAll(parts: seq<string>): seq<string> {
    seq(|parts|, i requires 0 <= i < |parts| => Text.Trim(parts[i]))
  }

  function IsNonEmpty(): string -> bool {
    s => s != ""
  }

  /** `text.split(",").map(t => t.trim()).filter(Boolean)`. */
  function ParseTags(text: string): seq<string> {
    Seqs.Filter(TrimAll(Text.Split(text, ',')), IsNonEmpty())
  }

  /** `tags.join(", ")`, the tag field of the edit form. */
  function JoinTags(tags: seq<string>): string {
    Text.Join(tags, ", ")
  }

  /** A tag the parser can produce: non-empty, trimmed, without a comma. */
  predicate IsCleanTag(t: string) {
    t != "" && Text.IsTrimmed(t) && ',' !in t
  }

  /**
   * `handleAddIdea`: nothing for a blank title; otherwise an unarchived,
   * unpinned idea without attachments and with the parsed tags.
   */
  function IdeaFromForm(title: string, content: string, tagsText: string): Option<Ideas.IdeaDraft> {
    if Text.IsBlank(title) then None
    else Some(Ideas.IdeaDraft(title, content, ParseTags(tagsText), [], false, false))
  }

  /**
   * `handleUpdateIdea`: nothing without an idea being edited (`null` or the
   * empty id) or with a blank title; otherwise the id and the patch of title,
   * content and parsed tags.
   */
  function IdeaPatchFromForm(editing: Option<string>, title: string, content: string, tagsText: string): Option<(string, Ideas.IdeaPatch)> {
    if editing.None? || editing.value == "" || Text.IsBlank(title) then None
    else Some((editing.value, Ideas.NoChanges.(title := Some(title), content := Some(content),
                                               tags := Some(ParseTags(tagsText)))))
  }

  /** The tags in use are exactly the tags of some idea, each listed once. */
  lemma AllTagsMembers(ideas: seq<Ideas.Idea>, t: string)
    ensures Seqs.Distinct(AllTags(ideas))
    ensures t in AllTags(ideas) <==> exists i :: 0 <= i < |ideas| && t in ideas[i].tags
  {
    Seqs.FlattenMembers(TagLists(ideas), t);
    if exists i :: 0 <= i < |ideas| && t in ideas[i].tags {
      var i :| 0 <= i < |ideas| && t in ideas[i].tags;
      assert t in TagLists(ideas)[i];
    }
  }

  /**
   * First-use order: the tags of earlier ideas come first, in the order the
   * earlier ideas alone would list them.
   */
  lemma AllTagsFirstUse(a: seq<Ideas.Idea>, b: seq<Ideas.Idea>)
    ensures AllTags(a) <= AllTags(a + b)
  {
    assert TagLists(a + b) == TagLists(a) + TagLists(b);
    Seqs.FlattenConcat(TagLists(a), TagLists(b));
    var all := Seqs.Flatten(TagLists(a + b));
    assert all[..|Seqs.Flatten(TagLists(a))|] == Seqs.Flatten(TagLists(a));
    Seqs.DedupPrefix(all, |Seqs.Flatten(TagLists(a))|);
  }

  /**
   * The chips are the first five tags in order of first use (all of them
   * when there are fewer): all different and all in use, and every tag in
   * use when there are no more than five.
   */
  lemma TagChipsShape(ideas: seq<Ideas.Idea>, t: string)
    ensures var r := TagChips(ideas);
      && |r| == (if |AllTags(ideas)| < 5 then |AllTags(ideas)| else 5)
      && r == AllTags(ideas)[..|r|]
      && Seqs.Distinct(r)
      && (t in r ==> exists i :: 0 <= i < |ideas| && t in ideas[i].tags)
      && (|AllTags(ideas)| <= 5 ==> (t in r <==> exists i :: 0 <= i < |ideas| && t in ideas[i].tags))
  {
    AllTagsMembers(ideas, t);
  }

  /** The idea comparator is a consistent order. */
  lemma IdeaOrderConsistent()
    ensures Seqs.Consistent(IdeaOrder())
  {
    forall a, b, c | IdeaOrder()(a, b) <= 0 && IdeaOrder()(b, c) <= 0
      ensures IdeaOrder()(a, c) <= 0
    {
      assert CompareIdeas(a, b) <= 0 && CompareIdeas(b, c) <= 0;
    }
  }

  /**
   * An idea is listed exactly when it is in the store, found by the search,
   * in the archive view that is selected, and carries the selected tag
   * unless every tag is selected.
   */
  lemma FilteredIdeasMembers(ideas: seq<Ideas.Idea>, query: string, showArchived: bool, tag: string, i: Ideas.Idea)
    ensures i in FilteredIdeas(ideas, query, showArchived, tag) <==>
      && i in ideas
      && MatchesSearch(i, query)
      && i.archived == showArchived
      && (tag == "all" || tag in i.tags)
  {
    var keep := Shown(query, showArchived, tag);
    Seqs.SortByMembers(Seqs.Filter(ideas, keep), IdeaOrder(), i);
    if i in ideas && keep(i) {
      Seqs.FilterKeeps(ideas, keep, i);
    }
  }

  /**
   * The list is ordered: no unpinned idea precedes a pinned one, and among
   * ideas alike in that respect the more recently updated comes first.
   */
  lemma FilteredIdeasOrdered(ideas: seq<Ideas.Idea>, query: string, showArchived: bool, tag: string)
    ensures var r := FilteredIdeas(ideas, query, showArchived, tag);
      forall i, j :: 0 <= i < j < |r| ==>
        && (r[j].pinned ==> r[i].pinned)
        && (r[i].pinned == r[j].pinned ==> r[i].updatedAt >= r[j].updatedAt)
  {
    IdeaOrderConsistent();
    Seqs.SortBySorted(Seqs.Filter(ideas, Shown(query, showArchived, tag)), IdeaOrder());
    var r := FilteredIdeas(ideas, query, showArchived, tag);
    forall i, j | 0 <= i < j < |r|
      ensures r[j].pinned ==> r[i].pinned
      ensures r[i].pinned == r[j].pinned ==> r[i].updatedAt >= r[j].updatedAt
    {
      assert IdeaOrder()(r[i], r[j]) <= 0;
    }
  }

  /** Parsed tags are never empty, never start or end with white space, and hold no comma. */
  lemma ParseTagsClean(text: string)
    ensures forall i :: 0 <= i < |ParseTags(text)| ==> IsCleanTag(ParseTags(text)[i])
  {
    var parts := Text.Split(text, ',');
    forall i | 0 <= i < |ParseTags(text)| ensures IsCleanTag(ParseTags(text)[i]) {
      var t := ParseTags(text)[i];
      assert t in ParseTags(text);
      var k :| 0 <= k < |parts| && TrimAll(parts)[k] == t;
      TrimSubstring(parts[k], ',');
    }
  }

  /** Trimming never brings in a character that was not there. */
  lemma TrimSubstring(s: string, c: char)
    requires c !in s
    ensures c !in Text.Trim(s)
  {
    var t := s[Text.LeadingWhite(s)..];
    assert forall i :: 0 <= i < |t| ==> t[i] == s[Text.LeadingWhite(s) + i];
  }

  /** The tags after the first, each behind the space the join puts after a comma. */
  function SpacedTail(tags: seq<string>): seq<string> {
    seq(|tags|, i requires 0 <= i < |tags| => " " + tags[i])
  }

  /** Joining with ", " is joining with "," the tags after the first with a leading space. */
  lemma {:induction false} JoinSpaced(tags: seq<string>)
    requires tags != []
    ensures Text.Join(SpacedTail(tags), ",") == " " + Text.Join(tags, ", ")
  {
    if |tags| > 1 {
      JoinSpaced(tags[1..]);
      assert SpacedTail(tags)[1..] == SpacedTail(tags[1..]);
    }
  }

  /**
   * The edit form round trip: parsing the joined tags of an idea gives them
   * back, as long as each tag is one the parser could have produced.
   */
  lemma ParseJoinTags(tags: seq<string>)
    requires forall i :: 0 <= i < |tags| ==> IsCleanTag(tags[i])
    ensures ParseTags(JoinTags(tags)) == tags
  {
    if tags == [] {
      assert TrimAll([""]) == [""];
    } else {
      SplitJoinedTags(tags);
      TrimJoinedPieces(tags);
      Seqs.FilterAllKept(tags, IsNonEmpty());
    }
  }

  /** The pieces of the joined tags: the first tag, then each later one behind a space. */
  function JoinedPieces(tags: seq<string>): seq<string>
    requires tags != []
  {
    [tags[0]] + SpacedTail(tags[1..])
  }

  /** Splitting the joined tags at the commas gives the spaced pieces. */
  lemma SplitJoinedTags(tags: seq<string>)
    requires tags != []
    requires forall i :: 0 <= i < |tags| ==> IsCleanTag(tags[i])
    ensures Text.Split(JoinTags(tags), ',') == JoinedPieces(tags)
  {
    var pieces := JoinedPieces(tags);
    if |tags| > 1 {
      JoinSpaced(tags[1..]);
      assert pieces[1..] == SpacedTail(tags[1..]);
      assert Text.Join(pieces, ",") == JoinTags(tags);
    }
    forall i | 0 <= i < |pieces| ensures ',' !in pieces[i] {
      if i > 0 {
        assert pieces[i] == " " + tags[i];
      }
    }
    Text.SplitJoin(pieces, ',');
  }

  /** Trimming the spaced pieces gives the clean tags back. */
  lemma TrimJoinedPieces(tags: seq<string>)
    requires tags != []
    requires forall i :: 0 <= i < |tags| ==> IsCleanTag(tags[i])
    ensures TrimAll(JoinedPieces(tags)) == tags
  {
    var pieces := JoinedPieces(tags);
    forall i | 0 <= i < |pieces| ensures Text.Trim(pieces[i]) == tags[i] {
      if i == 0 {
        Text.TrimTrimmed(tags[0]);
      } else {
        assert pieces[i] == " " + tags[i];
        Text.TrimAfterWhite(" ", tags[i]);
      }
    }
  }

  /**
   * The add form: nothing for a blank title; otherwise an unarchived,
   * unpinned draft without attachments, with the title and content as typed
   * and clean tags.
   */
  lemma IdeaFromFormShape(title: string, content: string, tagsText: string)
    ensures var r := IdeaFromForm(title, content, tagsText);
      && (r.None? <==> Text.IsBlank(title))
      && (r.Some? ==>
            && r.value.title == title && r.value.content == content
            && !r.value.archived && !r.value.pinned && r.value.attachments == []
            && r.value.tags == ParseTags(tagsText))
  {
  }

  /**
   * Saving the edit dialog of an idea without touching the fields leaves the
   * idea as it was, apart from its update time.
   */
  lemma EditUnchangedIdea(idea: Ideas.Idea, now: int)
    requires idea.id != ""
    requires !Text.IsBlank(idea.title)
    requires forall i :: 0 <= i < |idea.tags| ==> IsCleanTag(idea.tags[i])
    ensures var r := IdeaPatchFromForm(Some(idea.id), idea.title, idea.content, JoinTags(idea.tags));
      && r.Some? && r.value.0 == idea.id
      && Ideas.Merge(idea, r.value.1, now) == idea.(updatedAt := now)
  {
    ParseJoinTags(idea.tags);
  }

  /** The edit form refuses to save without an idea being edited or with a blank title. */
  lemma IdeaPatchFromFormGuard(editing: Option<string>, title: string, content: string, tagsText: string)
    ensures IdeaPatchFromForm(editing, title, content, tagsText).None? <==>
      editing.None? || editing.value == "" || Text.IsBlank(title)
  {
  }
}
