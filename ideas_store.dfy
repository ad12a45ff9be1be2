/**
 * The ideas store: the sequence `ideas`, with `addIdea`, a merging
 * `updateIdea`, `deleteIdea`, and the two flags `archiveIdea` and
 * `togglePin`, each of which flips its flag.
 */
module Ideas {
  import opened Wrappers
  import Seqs
  import Collection

  /** A note. Timestamps are milliseconds. */
  datatype Idea = Idea(
    id: string,
    title: string,
    content: string,
    tags: seq<string>,
    attachments: seq<string>,
    archived: bool,
    pinned: bool,
    createdAt: int,
    updatedAt: int)

  /** `Omit<Idea, 'id' | 'createdAt' | 'updatedAt'>`: what `addIdea` is given. */
  datatype IdeaDraft = IdeaDraft(
    title: string,
    content: string,
    tags: seq<string>,
    attachments: seq<string>,
    archived: bool,
    pinned: bool)

  /** `Partial<Idea>`: `None` leaves a property as it is. */
  datatype IdeaPatch = IdeaPatch(
    id: Option<string>,
    title: Option<string>,
    content: Option<string>,
    tags: Option<seq<string>>,
    attachments: Option<seq<string>>,
    archived: Option<bool>,
    pinned: Option<bool>,
    createdAt: Option<int>,
    updatedAt: Option<int>)

  const NoChanges: IdeaPatch := IdeaPatch(None, None, None, None, None, None, None, None, None)

  function IdeaId(i: Idea): string {
    i.id
  }

  /** `{...draft, id, createdAt: now, updatedAt: now}`. */
  function Create(d: IdeaDraft, id: string, now: int): Idea {
    Idea(id, d.title, d.content, d.tags, d.attachments, d.archived, d.pinned, now, now)
  }

  /** The caller-supplied part of an idea. */
  function DraftOf(i: Idea): IdeaDraft {
    IdeaDraft(i.title, i.content, i.tags, i.attachments, i.archived, i.pinned)
  }

  /** `{...i, ...p, updatedAt: now}`. */
  function Merge(i: Idea, p: IdeaPatch, now: int): Idea {
    Idea(p.id.GetOr(i.id), p.title.GetOr(i.title), p.content.GetOr(i.content),
         p.tags.GetOr(i.tags), p.attachments.GetOr(i.attachments),
         p.archived.GetOr(i.archived), p.pinned.GetOr(i.pinned),
         p.createdAt.GetOr(i.createdAt), now)
  }

  function MergeWith(p: IdeaPatch, now: int): Idea -> Idea {
    i => Merge(i, p, now)
  }

  /** `archiveIdea`: flips `archived`, so a second call unarchives. */
  function ArchiveFlipWith(now: int): Idea -> Idea {
    (i: Idea) => i.(archived := !i.archived, updatedAt := now)
  }

  function PinFlipWith(now: int): Idea -> Idea {
    (i: Idea) => i.(pinned := !i.pinned, updatedAt := now)
  }

  function Added(ideas: seq<Idea>, d: IdeaDraft, id: string, now: int): seq<Idea> {
    ideas + [Create(d, id, now)]
  }

  function Updated(ideas: seq<Idea>, id: string, p: IdeaPatch, now: int): seq<Idea> {
    Collection.Replace(ideas, IdeaId, id, MergeWith(p, now))
  }

  function Deleted(ideas: seq<Idea>, id: string): seq<Idea> {
    Collection.Remove(ideas, IdeaId, id)
  }

  function Archived(ideas: seq<Idea>, id: string, now: int): seq<Idea> {
    Collection.Replace(ideas, IdeaId, id, ArchiveFlipWith(now))
  }

  function Pinned(ideas: seq<Idea>, id: string, now: int): seq<Idea> {
    Collection.Replace(ideas, IdeaId, id, PinFlipWith(now))
  }

  class IdeasStore {
    var ideas: seq<Idea>

    constructor (initial: seq<Idea>)
      ensures ideas == initial
    {
      ideas := initial;
    }

    method AddIdea(draft: IdeaDraft, freshId: string, now: int)
      requires Collection.IsFresh(ideas, IdeaId, freshId)
      modifies this
      ensures ideas == Added(old(ideas), draft, freshId, now)
    {
      ideas := Added(ideas, draft, freshId, now);
    }

    method UpdateIdea(id: string, updates: IdeaPatch, now: int)
      modifies this
      ensures ideas == Updated(old(ideas), id, updates, now)
    {
      ideas := Updated(ideas, id, updates, now);
    }

    method DeleteIdea(id: string)
      modifies this
      ensures ideas == Deleted(old(ideas), id)
    {
      ideas := Deleted(ideas, id);
    }

    method ArchiveIdea(id: string, now: int)
      modifies this
      ensures ideas == Archived(old(ideas), id, now)
    {
      ideas := Archived(ideas, id, now);
    }

    method TogglePin(id: string, now: int)
      modifies this
      ensures ideas == Pinned(old(ideas), id, now)
    {
      ideas := Pinned(ideas, id, now);
    }
  }

  /**
   * `addIdea` appends one idea carrying the draft, the fresh id and the clock
   * as both timestamps; a query by the fresh id finds exactly it.
   */
  lemma AddIdeaAppends(ideas: seq<Idea>, d: IdeaDraft, id: string, now: int)
    requires Collection.IsFresh(ideas, IdeaId, id)
    ensures var r := Added(ideas, d, id, now);
      && |r| == |ideas| + 1
      && r[..|ideas|] == ideas
      && DraftOf(r[|ideas|]) == d
      && r[|ideas|].id == id && r[|ideas|].createdAt == now && r[|ideas|].updatedAt == now
      && Collection.Find(r, IdeaId, id) == [r[|ideas|]]
      && (Collection.UniqueIds(ideas, IdeaId) ==> Collection.UniqueIds(r, IdeaId))
  {
    Collection.AppendFresh(ideas, IdeaId, Create(d, id, now));
    assert (ideas + [Create(d, id, now)])[..|ideas|] == ideas;
  }

  /**
   * `updateIdea` merges the patch into the ideas with the id and stamps
   * `now`; the others are untouched and an absent id changes nothing.
   */
  lemma UpdateIdeaEffect(ideas: seq<Idea>, id: string, p: IdeaPatch, now: int)
    ensures var r := Updated(ideas, id, p, now);
      && |r| == |ideas|
      && (forall i :: 0 <= i < |ideas| && ideas[i].id != id ==> r[i] == ideas[i])
      && (forall i :: 0 <= i < |ideas| && ideas[i].id == id ==>
            r[i] == Merge(ideas[i], p, now) && r[i].updatedAt == now)
      && (Collection.IsFresh(ideas, IdeaId, id) ==> r == ideas)
      && (p.id.None? && Collection.UniqueIds(ideas, IdeaId) ==> Collection.UniqueIds(r, IdeaId))
  {
    Collection.ReplaceEffect(ideas, IdeaId, id, MergeWith(p, now));
    if p.id.None? && Collection.UniqueIds(ideas, IdeaId) {
      Collection.ReplaceKeepsUnique(ideas, IdeaId, id, MergeWith(p, now));
    }
  }

  /** `deleteIdea` removes exactly the ideas with the id and keeps the rest. */
  lemma DeleteIdeaEffect(ideas: seq<Idea>, id: string)
    ensures var r := Deleted(ideas, id);
      && Collection.IsFresh(r, IdeaId, id)
      && (forall x :: x in ideas && x.id != id ==> x in r)
      && (forall x :: x in r ==> x in ideas)
      && |r| + |Collection.Find(ideas, IdeaId, id)| == |ideas|
      && (Collection.UniqueIds(ideas, IdeaId) ==> Collection.UniqueIds(r, IdeaId))
  {
    Collection.RemoveEffect(ideas, IdeaId, id);
    if Collection.UniqueIds(ideas, IdeaId) {
      Collection.FilterKeepsUnique(ideas, IdeaId, Seqs.Not(Collection.WithId(IdeaId, id)));
    }
  }

  /**
   * `archiveIdea` is an update of `archived` alone, to its negation; the
   * pin and the content are untouched.
   */
  lemma ArchiveIdeaEffect(ideas: seq<Idea>, id: string, now: int)
    ensures var r := Archived(ideas, id, now);
      && |r| == |ideas|
      && (forall i :: 0 <= i < |ideas| && ideas[i].id != id ==> r[i] == ideas[i])
      && (forall i :: 0 <= i < |ideas| && ideas[i].id == id ==>
            r[i] == Merge(ideas[i], NoChanges.(archived := Some(!ideas[i].archived)), now))
      && (Collection.IsFresh(ideas, IdeaId, id) ==> r == ideas)
  {
    Collection.ReplaceEffect(ideas, IdeaId, id, ArchiveFlipWith(now));
  }

  /** `togglePin` is an update of `pinned` alone, to its negation. */
  lemma TogglePinEffect(ideas: seq<Idea>, id: string, now: int)
    ensures var r := Pinned(ideas, id, now);
      && |r| == |ideas|
      && (forall i :: 0 <= i < |ideas| && ideas[i].id != id ==> r[i] == ideas[i])
      && (forall i :: 0 <= i < |ideas| && ideas[i].id == id ==>
            r[i] == Merge(ideas[i], NoChanges.(pinned := Some(!ideas[i].pinned)), now))
      && (Collection.IsFresh(ideas, IdeaId, id) ==> r == ideas)
  {
    Collection.ReplaceEffect(ideas, IdeaId, id, PinFlipWith(now));
  }

  /** Archiving twice restores the flag: `archiveIdea` is a toggle, not a one-way archive. */
  lemma ArchiveTwice(ideas: seq<Idea>, id: string, n1: int, n2: int)
    ensures Archived(Archived(ideas, id, n1), id, n2) == Updated(ideas, id, NoChanges, n2)
  {
    Collection.ReplaceEffect(ideas, IdeaId, id, ArchiveFlipWith(n1));
    Collection.ReplaceEffect(Archived(ideas, id, n1), IdeaId, id, ArchiveFlipWith(n2));
    Collection.ReplaceEffect(ideas, IdeaId, id, MergeWith(NoChanges, n2));
  }

  /** Pinning twice restores the flag. */
  lemma PinTwice(ideas: seq<Idea>, id: string, n1: int, n2: int)
    ensures Pinned(Pinned(ideas, id, n1), id, n2) == Updated(ideas, id, NoChanges, n2)
  {
    Collection.ReplaceEffect(ideas, IdeaId, id, PinFlipWith(n1));
    Collection.ReplaceEffect(Pinned(ideas, id, n1), IdeaId, id, PinFlipWith(n2));
    Collection.ReplaceEffect(ideas, IdeaId, id, MergeWith(NoChanges, n2));
  }
}
