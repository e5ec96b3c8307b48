/**
 * The admin blog editor: the form it holds, how a stored post is loaded
 * into it, and what `handleSave` sends to the database: validation, the
 * comma-separated tag list, the computed read time, the stored image and
 * the one-time `published_at` stamp.
 */
module BlogEditor {
  import opened Text

  datatype Status = Draft | Published

  /** A stored post; `created_at` and `updated_at` are set by the database and not modelled. */
  datatype Blog = Blog(
    id: string,
    title: string,
    excerpt: string,
    content: string,
    featuredImage: Option<string>,
    tags: seq<string>,
    status: Status,
    readTime: int,
    publishedAt: Option<string>)

  /** The editor's form state; tags are edited as one comma-separated string. */
  datatype Form = Form(
    title: string,
    excerpt: string,
    content: string,
    featuredImage: string,
    tags: string,
    status: Status,
    readTime: int)

  const InitialForm: Form := Form("", "", "", "", "", Draft, 5)

  /** A nullable string column read as JavaScript truthiness. */
  predicate Truthy(o: Option<string>) {
    o.Some? && o.value != ""
  }

  // ---- read time ----

  const WordsPerMinute: nat := 200

  /** `content.split(' ').length`: one more than the number of spaces. */
  function WordCount(content: string): nat {
    |Split(content, Char(' '))|
  }

  function CountChar(s: string, c: char): nat {
    if |s| == 0 then 0 else (if s[0] == c then 1 else 0) + CountChar(s[1..], c)
  }

  lemma {:induction false} WordCountIsSpacesPlusOne(content: string)
    ensures WordCount(content) == CountChar(content, ' ') + 1
  {
    if |content| > 0 {
      WordCountIsSpacesPlusOne(content[1..]);
    }
  }

  /**
   * `Math.max(1, Math.ceil(wordCount / 200))`: the least whole number of
   * minutes, at least one, whose 200 words per minute cover the count.
   */
  function MinutesFor(wordCount: nat): (r: nat)
    ensures r >= 1 && wordCount <= WordsPerMinute * r
    ensures r == 1 || WordsPerMinute * (r - 1) < wordCount
  {
    var minutes := (wordCount + WordsPerMinute - 1) / WordsPerMinute;
    if minutes > 1 then minutes else 1
  }

  function ReadTime(content: string): nat {
    MinutesFor(WordCount(content))
  }

  /** More words never mean fewer minutes. */
  lemma MinutesMonotone(w1: nat, w2: nat)
    requires w1 <= w2
    ensures MinutesFor(w1) <= MinutesFor(w2)
  {
  }

  /** 200 pieces fit in one minute, 201 need two. */
  lemma MinutesBoundary()
    ensures MinutesFor(200) == 1 && MinutesFor(201) == 2
  {
  }

  /** Read time of the text: at least one minute, and exactly enough minutes for its space-separated pieces. */
  lemma ReadTimeSpec(content: string)
    ensures ReadTime(content) >= 1
    ensures CountChar(content, ' ') + 1 <= WordsPerMinute * ReadTime(content)
    ensures ReadTime(content) == 1 || WordsPerMinute * (ReadTime(content) - 1) < CountChar(content, ' ') + 1
  {
    WordCountIsSpacesPlusOne(content);
  }

  // ---- tags ----

  function TrimAll(xs: seq<string>): (r: seq<string>)
    ensures |r| == |xs|
  {
    seq(|xs|, i requires 0 <= i < |xs| => Trim(xs[i]))
  }

  /** `tags.split(",").map(t => t.trim()).filter(t => t.length > 0)`. */
  function ParseTags(tags: string): seq<string> {
    NonEmpty(TrimAll(Split(tags, Char(','))))
  }

  /** `tags.join(", ")`, how a stored post's tags are put into the form. */
  function JoinTags(tags: seq<string>): string {
    Join(tags, ", ")
  }

  /** A tag as parsing produces it: non-empty, no surrounding whitespace, no comma. */
  predicate IsTag(t: string) {
    t != "" && IsTrimmed(t) && NoSep(t, Char(','))
  }

  /** Every parsed tag is a proper tag. */
  lemma ParsedTagsAreTags(tags: string)
    ensures forall k :: 0 <= k < |ParseTags(tags)| ==> IsTag(ParseTags(tags)[k])
  {
    var pieces := Split(tags, Char(','));
    var trimmed := TrimAll(pieces);
    var r := ParseTags(tags);
    forall i | 0 <= i < |trimmed| && trimmed[i] != "" ensures IsTag(trimmed[i]) {
      PieceTag(pieces[i]);
    }
    forall k | 0 <= k < |r| ensures IsTag(r[k]) {
      assert r[k] in trimmed;
    }
  }

  /** A comma-free piece that does not trim to empty trims to a tag. */
  lemma PieceTag(p: string)
    requires NoSep(p, Char(',')) && Trim(p) != ""
    ensures IsTag(Trim(p))
  {
    TrimShape(p);
    var j := |p| - |TrimStart(p)|;
    NoSepSlice(p, Char(','), j, j + |Trim(p)|);
  }

  /**
   * The tags of two texts joined by a comma are the tags of the first
   * followed by the tags of the second.
   */
  lemma ParseTagsConcat(a: string, b: string)
    ensures ParseTags(a + "," + b) == ParseTags(a) + ParseTags(b)
  {
    var sa := Split(a, Char(','));
    var sb := Split(b, Char(','));
    assert a + "," + b == a + [','] + b;
    SplitConcatSep(a, ',', b, Char(','));
    TrimAllConcat(sa, sb);
    NonEmptyConcat(TrimAll(sa), TrimAll(sb));
  }

  /** Text without a comma is one tag, trimmed, or none when it is blank. */
  lemma ParseTagsPiece(a: string)
    requires NoSep(a, Char(','))
    ensures Trim(a) != "" ==> ParseTags(a) == [Trim(a)]
    ensures Trim(a) == "" ==> ParseTags(a) == []
  {
    SplitNoSep(a, Char(','));
    var t := Trim(a);
    assert TrimAll([a]) == [t];
    assert [t][0] == t && [t][1..] == [];
    assert NonEmpty([t]) == (if t == "" then [] else [t]) + NonEmpty([]);
  }

  /** The tags of a text are its first comma-free piece, trimmed and kept when non-empty, then the tags of the rest. */
  lemma ParseTagsStep(a: string, b: string)
    requires NoSep(a, Char(','))
    ensures ParseTags(a + "," + b) == (if Trim(a) == "" then [] else [Trim(a)]) + ParseTags(b)
  {
    ParseTagsConcat(a, b);
    ParseTagsPiece(a);
  }

  lemma TrimAllConcat(xs: seq<string>, ys: seq<string>)
    ensures TrimAll(xs + ys) == TrimAll(xs) + TrimAll(ys)
  {
  }

  lemma TrimAllCons(x: string, ys: seq<string>)
    ensures TrimAll([x] + ys) == [Trim(x)] + TrimAll(ys)
  {
  }

  lemma {:induction false} NonEmptyKeepsAll(xs: seq<string>)
    requires forall k :: 0 <= k < |xs| ==> xs[k] != ""
    ensures NonEmpty(xs) == xs
  {
    if |xs| > 0 {
      NonEmptyKeepsAll(xs[1..]);
    }
  }

  lemma NoCommaAfterLead(lead: string, t: string)
    requires lead == "" || lead == " "
    requires NoSep(t, Char(','))
    ensures NoSep(lead + t, Char(','))
  {
    assert forall i :: 0 <= i < |t| ==> (lead + t)[|lead| + i] == t[i];
  }

  lemma TrimLead(lead: string, t: string)
    requires lead == "" || lead == " "
    requires IsTrimmed(t)
    ensures Trim(lead + t) == t
  {
    if lead == "" {
      assert lead + t == t;
      TrimOfTrimmed(t);
    } else {
      TrimSpaceThenTrimmed(t);
    }
  }

  lemma JoinAtComma(lead: string, ts: seq<string>)
    requires |ts| >= 2
    ensures lead + Join(ts, ", ") == (lead + ts[0]) + [','] + (" " + Join(ts[1..], ", "))
  {
    var rest := Join(ts[1..], ", ");
    var sep: string := ", ";
    assert sep == [','] + " ";
    assert Join(ts, sep) == ts[0] + sep + rest;
    Regroup(lead, ts[0], [','], " ", rest);
  }

  lemma Regroup(a: string, b: string, c: string, d: string, e: string)
    ensures a + (b + (c + d) + e) == (a + b) + c + (d + e)
  {
  }

  /** The pieces of a ", "-joined list, possibly after a leading space, trim back to the list. */
  lemma {:induction false} SplitJoinedTags(ts: seq<string>, lead: string)
    requires lead == "" || lead == " "
    requires |ts| >= 1 && forall k :: 0 <= k < |ts| ==> IsTag(ts[k])
    ensures TrimAll(Split(lead + Join(ts, ", "), Char(','))) == ts
  {
    if |ts| == 1 {
      var a := lead + ts[0];
      NoCommaAfterLead(lead, ts[0]);
      TrimLead(lead, ts[0]);
      SplitNoSep(a, Char(','));
    } else {
      HeadTail(ts);
      SplitJoinedTags(ts[1..], " ");
      SplitJoinedTagsStep(ts, lead);
    }
  }

  /** The step of `SplitJoinedTags`: the first tag becomes the first piece, the rest split as before. */
  lemma SplitJoinedTagsStep(ts: seq<string>, lead: string)
    requires lead == "" || lead == " "
    requires |ts| >= 2 && IsTag(ts[0])
    requires TrimAll(Split(" " + Join(ts[1..], ", "), Char(','))) == ts[1..]
    ensures TrimAll(Split(lead + Join(ts, ", "), Char(','))) == ts
  {
    var a := lead + ts[0];
    NoCommaAfterLead(lead, ts[0]);
    TrimLead(lead, ts[0]);
    var tail := " " + Join(ts[1..], ", ");
    JoinAtComma(lead, ts);
    SplitAtSep(a, ',', tail, Char(','));
    TrimAllCons(a, Split(tail, Char(',')));
    HeadTail(ts);
  }

  lemma HeadTail(ts: seq<string>)
    requires |ts| >= 1
    ensures ts == [ts[0]] + ts[1..]
    ensures forall k :: 0 <= k < |ts| - 1 ==> ts[1..][k] == ts[k + 1]
  {
  }

  /** Parsing the form's tag string after loading gives back the stored tags, in order. */
  lemma TagsRoundTrip(ts: seq<string>)
    requires forall k :: 0 <= k < |ts| ==> IsTag(ts[k])
    ensures ParseTags(JoinTags(ts)) == ts
  {
    if |ts| == 0 {
      assert TrimAll([""]) == [""];
    } else {
      SplitJoinedTags(ts, "");
      assert "" + Join(ts, ", ") == Join(ts, ", ");
      NonEmptyKeepsAll(ts);
    }
  }

  // ---- load ----

  /** `blog.featured_image || ""`. */
  function ImageField(image: Option<string>): string {
    match image
    case None => ""
    case Some(s) => s
  }

  /** `formData.featured_image || null`. */
  function StoredImage(field: string): Option<string> {
    if field == "" then None else Some(field)
  }

  /** An image survives loading and saving when it is truthy; an empty one comes back as null. */
  lemma ImageRoundTrip(image: Option<string>)
    ensures StoredImage(ImageField(image)) == if Truthy(image) then image else None
  {
  }

  /** The effect that fills the form from the post being edited. */
  function FormOf(blog: Blog): Form {
    Form(blog.title, blog.excerpt, blog.content, ImageField(blog.featuredImage),
         JoinTags(blog.tags), blog.status, blog.readTime)
  }

  // ---- save ----

  /** The record `handleSave` sends; `publishedAt == None` means the key is absent. */
  datatype BlogData = BlogData(
    title: string,
    excerpt: string,
    content: string,
    featuredImage: Option<string>,
    tags: seq<string>,
    status: Status,
    readTime: nat,
    authorId: Option<string>,
    publishedAt: Option<string>)

  /** The database call a save makes, if any. */
  datatype SaveAction = Rejected | UpdateBlog(id: string, data: BlogData) | InsertBlog(data: BlogData)

  /** `!title.trim() || !excerpt.trim() || !content.trim()` fails validation. */
  predicate FormValid(form: Form) {
    Trim(form.title) != "" && Trim(form.excerpt) != "" && Trim(form.content) != ""
  }

  /** `published_at` is sent only when publishing a post that has no publication time yet. */
  function PublishStamp(status: Status, blog: Option<Blog>, now: string): Option<string> {
    if status == Published && !(blog.Some? && Truthy(blog.value.publishedAt)) then Some(now) else None
  }

  function BlogDataFor(form: Form, blog: Option<Blog>, authorId: Option<string>, now: string): BlogData {
    BlogData(form.title, form.excerpt, form.content, StoredImage(form.featuredImage),
             ParseTags(form.tags), form.status, ReadTime(form.content), authorId,
             PublishStamp(form.status, blog, now))
  }

  /** `handleSave` as a value: nothing on failed validation, an update by id when editing, an insert otherwise. */
  function SaveRequestFor(form: Form, blog: Option<Blog>, authorId: Option<string>, now: string): SaveAction {
    if !FormValid(form) then Rejected
    else
      match blog
      case Some(b) => UpdateBlog(b.id, BlogDataFor(form, blog, authorId, now))
      case None => InsertBlog(BlogDataFor(form, blog, authorId, now))
  }

  /**
   * A save is rejected exactly when a required field is empty or all
   * whitespace; otherwise it updates the edited post by its id, or inserts
   * when there is none.
   */
  lemma SaveValidation(form: Form, blog: Option<Blog>, authorId: Option<string>, now: string)
    ensures SaveRequestFor(form, blog, authorId, now) == Rejected <==>
      IsBlank(form.title) || IsBlank(form.excerpt) || IsBlank(form.content)
    ensures SaveRequestFor(form, blog, authorId, now).UpdateBlog? <==>
      blog.Some? && !SaveRequestFor(form, blog, authorId, now).Rejected?
    ensures SaveRequestFor(form, blog, authorId, now).UpdateBlog? ==>
      SaveRequestFor(form, blog, authorId, now).id == blog.value.id
  {
    TrimEmptyIffBlank(form.title);
    TrimEmptyIffBlank(form.excerpt);
    TrimEmptyIffBlank(form.content);
  }

  /**
   * The form's read time (the loaded post's, or the default 5) is ignored:
   * the stored one is computed from the content.
   */
  lemma SaveRecomputesReadTime(form: Form, blog: Option<Blog>, authorId: Option<string>, now: string, formReadTime: int)
    ensures SaveRequestFor(form.(readTime := formReadTime), blog, authorId, now) == SaveRequestFor(form, blog, authorId, now)
    ensures !SaveRequestFor(form, blog, authorId, now).Rejected? ==>
      SaveRequestFor(form, blog, authorId, now).data.readTime >= 1
  {
  }

  /** What an update does to the stored row: every sent column is replaced, an absent `published_at` is kept. */
  function ApplyUpdate(b: Blog, d: BlogData): Blog {
    Blog(b.id, d.title, d.excerpt, d.content, d.featuredImage, d.tags, d.status, d.readTime,
         if d.publishedAt.Some? then d.publishedAt else b.publishedAt)
  }

  /**
   * The publication time is sent exactly when publishing a post that has
   * none, so saving never overwrites an existing one.
   */
  lemma PublishedAtSetOnce(form: Form, b: Blog, authorId: Option<string>, now: string)
    requires FormValid(form)
    ensures var r := SaveRequestFor(form, Some(b), authorId, now);
      && r.UpdateBlog?
      && (r.data.publishedAt.Some? <==> form.status == Published && !Truthy(b.publishedAt))
      && (Truthy(b.publishedAt) ==> ApplyUpdate(b, r.data).publishedAt == b.publishedAt)
      && (r.data.publishedAt.Some? ==> ApplyUpdate(b, r.data).publishedAt == Some(now))
  {
  }

  /**
   * Opening a post and saving it without edits writes back its text, tags
   * and status, keeps a truthy image (an empty one becomes null) and its
   * publication time.
   */
  lemma LoadThenSave(b: Blog, authorId: Option<string>, now: string)
    requires !IsBlank(b.title) && !IsBlank(b.excerpt) && !IsBlank(b.content)
    requires forall k :: 0 <= k < |b.tags| ==> IsTag(b.tags[k])
    requires b.status == Published ==> Truthy(b.publishedAt)
    ensures var r := SaveRequestFor(FormOf(b), Some(b), authorId, now);
      && r.UpdateBlog? && r.id == b.id
      && var saved := ApplyUpdate(b, r.data);
      && saved == b.(featuredImage := saved.featuredImage, readTime := ReadTime(b.content))
      && saved.featuredImage == (if Truthy(b.featuredImage) then b.featuredImage else None)
  {
    SaveValidation(FormOf(b), Some(b), authorId, now);
    TagsRoundTrip(b.tags);
    ImageRoundTrip(b.featuredImage);
  }

  // ---- the editor component ----

  /** The text inputs `handleInputChange` updates by their `name`. */
  datatype Field = TitleField | ExcerptField | FeaturedImageField | TagsField

  function WithField(form: Form, field: Field, value: string): Form {
    match field
    case TitleField => form.(title := value)
    case ExcerptField => form.(excerpt := value)
    case FeaturedImageField => form.(featuredImage := value)
    case TagsField => form.(tags := value)
  }

  class Editor {
    /** The post being edited, or `None` for a new one. */
    const blog: Option<Blog>
    var form: Form
    var loading: bool

    /** Mounting, followed by the effect that copies the post into the form. */
    constructor(blog: Option<Blog>)
      ensures this.blog == blog && !loading
      ensures form == (if blog.Some? then FormOf(blog.value) else InitialForm)
    {
      this.blog := blog;
      loading := false;
      form := InitialForm;
      new;
      if blog.Some? {
        form := FormOf(blog.value);
      }
    }

    method InputChange(field: Field, value: string)
      modifies this
      ensures form == WithField(old(form), field, value) && loading == old(loading)
    {
      form := WithField(form, field, value);
    }

    method ContentChange(value: string)
      modifies this
      ensures form == old(form).(content := value) && loading == old(loading)
    {
      form := form.(content := value);
    }

    method StatusChange(value: Status)
      modifies this
      ensures form == old(form).(status := value) && loading == old(loading)
    {
      form := form.(status := value);
    }

    /**
     * `handleSave`. `dbSucceeds` is whether the database call reported no
     * error; the editor closes only after a successful call. The loading
     * flag is lowered again in every case where it was raised.
     */
    method Save(authorId: Option<string>, now: string, dbSucceeds: bool)
      returns (request: SaveAction, closed: bool)
      modifies this
      ensures request == SaveRequestFor(form, blog, authorId, now)
      ensures form == old(form)
      ensures request.Rejected? ==> loading == old(loading)
      ensures !request.Rejected? ==> !loading
      ensures closed <==> !request.Rejected? && dbSucceeds
    {
      var f := form;
      if Trim(f.title) == "" || Trim(f.excerpt) == "" || Trim(f.content) == "" {
        return Rejected, false;
      }
      assert FormValid(f);
      loading := true;
      var tags := ParseTags(f.tags);
      var readTime := ReadTime(f.content);
      var blogData := BlogData(f.title, f.excerpt, f.content, StoredImage(f.featuredImage),
                               tags, f.status, readTime, authorId, PublishStamp(f.status, blog, now));
      assert blogData == BlogDataFor(f, blog, authorId, now);
      if blog.Some? {
        request := UpdateBlog(blog.value.id, blogData);
      } else {
        request := InsertBlog(blogData);
      }
      closed := dbSucceeds;
      loading := false;
    }
  }
}
