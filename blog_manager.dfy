/**
 * The admin blog list: the draft/published toggle with its one-time
 * publication stamp, the confirmation before a delete, and which post the
 * editor is open on.
 */
module BlogManager {
  import opened Text
  import opened BlogEditor

  /** `blog.status === 'published' ? 'draft' : 'published'`. */
  function ToggledStatus(s: Status): (r: Status)
    ensures r != s
  {
    if s == Published then Draft else Published
  }

  /** Toggling twice gives the status back. */
  lemma ToggleInvolution(s: Status)
    ensures ToggledStatus(ToggledStatus(s)) == s
  {
  }

  /** The `updates` object: the new status, and `published_at` only when it is added. */
  datatype StatusUpdate = StatusUpdate(status: Status, publishedAt: Option<string>)

  function StatusUpdateFor(blog: Blog, now: string): StatusUpdate {
    var newStatus := ToggledStatus(blog.status);
    if newStatus == Published && !Truthy(blog.publishedAt) then StatusUpdate(newStatus, Some(now))
    else StatusUpdate(newStatus, None)
  }

  /** The stored row after the update: status replaced, `published_at` replaced only when sent. */
  function ApplyStatusUpdate(b: Blog, u: StatusUpdate): Blog {
    b.(status := u.status, publishedAt := if u.publishedAt.Some? then u.publishedAt else b.publishedAt)
  }

  /**
   * The toggle stamps `published_at` exactly when it publishes a post that
   * has no publication time, the same rule the editor's save follows.
   */
  lemma ToggleStamp(b: Blog, now: string)
    ensures StatusUpdateFor(b, now).status == ToggledStatus(b.status)
    ensures StatusUpdateFor(b, now).publishedAt.Some? <==> b.status == Draft && !Truthy(b.publishedAt)
    ensures StatusUpdateFor(b, now).publishedAt == PublishStamp(ToggledStatus(b.status), Some(b), now)
  {
  }

  /**
   * Unpublishing, or publishing a post that already has a publication
   * time, changes the status and nothing else.
   */
  lemma ToggleOnlyStatus(b: Blog, now: string)
    requires b.status == Published || Truthy(b.publishedAt)
    ensures ApplyStatusUpdate(b, StatusUpdateFor(b, now)) == b.(status := ToggledStatus(b.status))
  {
  }

  /**
   * Once set, the publication time survives any number of toggles, and two
   * toggles in a row give back a post that was already stamped.
   */
  lemma ToggleTwice(b: Blog, now1: string, now2: string)
    requires now1 != ""
    ensures var once := ApplyStatusUpdate(b, StatusUpdateFor(b, now1));
      var twice := ApplyStatusUpdate(once, StatusUpdateFor(once, now2));
      && twice.status == b.status
      && (Truthy(b.publishedAt) ==> twice == b)
      && (b.status == Draft ==> Truthy(twice.publishedAt))
  {
  }

  /** `handleDelete`: the delete by id is issued only when the confirmation dialog returns true. */
  function DeleteRequest(confirmed: bool, id: string): (r: Option<string>)
    ensures r.Some? <==> confirmed
    ensures r.Some? ==> r.value == id
  {
    if !confirmed then None else Some(id)
  }

  class Manager {
    var showEditor: bool
    var editingBlog: Option<Blog>

    /** The editor holds a post only while it is shown. */
    ghost predicate Valid()
      reads this
    {
      !showEditor ==> editingBlog.None?
    }

    constructor()
      ensures Valid() && !showEditor && editingBlog == None
    {
      showEditor := false;
      editingBlog := None;
    }

    /** `handleEdit`: open the editor on the given post. */
    method Edit(blog: Blog)
      requires Valid()
      modifies this
      ensures Valid() && showEditor && editingBlog == Some(blog)
    {
      editingBlog := Some(blog);
      showEditor := true;
    }

    /** `handleCreateNew`: open the editor on a new post. */
    method CreateNew()
      requires Valid()
      modifies this
      ensures Valid() && showEditor && editingBlog == None
    {
      editingBlog := None;
      showEditor := true;
    }

    /** `handleEditorClose`: close the editor and forget the post; the list refetch is not modelled. */
    method EditorClose()
      requires Valid()
      modifies this
      ensures Valid() && !showEditor && editingBlog == None
    {
      showEditor := false;
      editingBlog := None;
    }

    /** The editor the page renders instead of the list, if any: the post it edits (`None` for a new one). */
    function ShownEditor(): (r: Option<Option<Blog>>)
      reads this
      requires Valid()
      ensures r.Some? <==> showEditor
      ensures r.Some? ==> r.value == editingBlog
    {
      if showEditor then Some(editingBlog) else None
    }
  }
}
