/**
 * The social-media post list of src/components/AdminPanel.tsx: an in-memory list of posts that
 * every change writes through to the browser's `localStorage` slot "socialMediaPosts". The list
 * operations are functions over sequences; the panel itself is a class whose fields are the
 * component's state and the storage slot. Post ids and dates come from the clock in the source
 * and are parameters here.
 */
module AdminPosts {
  import opened Wrappers
  import JsText

  datatype Platform = Twitter | LinkedIn | Instagram

  datatype SocialPost = SocialPost(
    id: string,
    platform: Platform,
    content: string,
    engagement: string,
    date: string,
    url: Option<string>,
    author: string)

  /** The "add post" form (`newPost`). Its author has no input field and keeps its initial value. */
  datatype PostDraft = PostDraft(platform: Platform, content: string, engagement: string, author: string)

  const DefaultAuthor := "Smart Booking Pro"
  const EmptyDraft := PostDraft(Twitter, "", "", DefaultAuthor)
  const DefaultEngagement := "0 likes, 0 comments"

  const LaunchContent := "\U{00F0}\U{0178}\U{0161}\U{20AC} Just launched our AI booking system! Reduced booking time by 80% for our clients. #SmartBooking #AI #Productivity"
  const CaseStudyContent := "Case Study: How AI transformed appointment scheduling for 500+ businesses. Our Claude AI integration reduced manual booking time from 15 minutes to 3 minutes per appointment."
  const BehindTheScenesContent := "Behind the scenes: Our Claude AI development process \U{00E2}\U{0153}\U{00A8} See how we're revolutionizing appointment booking with intelligent automation! #AI #Innovation #SmartBooking"

  /**
   * The three posts shown when nothing is saved. The dates are today's, yesterday's and the day
   * before's `toLocaleDateString()`; the content keeps the source file's characters as they are.
   */
  function DefaultPosts(today: string, yesterday: string, twoDaysAgo: string): (r: seq<SocialPost>)
    ensures |r| == 3 && r[0].date == today && r[1].date == yesterday && r[2].date == twoDaysAgo
    ensures forall i, j :: 0 <= i < j < |r| ==> r[i].id != r[j].id
    ensures forall i :: 0 <= i < |r| ==> r[i].author == DefaultAuthor && r[i].url.None? && r[i].content != ""
  {
    [ SocialPost("1", Twitter, LaunchContent, "156 likes, 23 retweets", today, None, DefaultAuthor),
      SocialPost("2", LinkedIn, CaseStudyContent, "89 reactions, 12 comments", yesterday, None, DefaultAuthor),
      SocialPost("3", Instagram, BehindTheScenesContent, "234 likes, 18 comments", twoDaysAgo, None, DefaultAuthor) ]
  }

  /** The post `addPost` builds from the form: content as typed, an empty engagement replaced by the default. */
  function PostFromDraft(draft: PostDraft, id: string, date: string): (p: SocialPost)
    ensures p.id == id && p.date == date && p.url.None?
    ensures p.platform == draft.platform && p.content == draft.content && p.author == draft.author
    ensures p.engagement != "" && (draft.engagement != "" ==> p.engagement == draft.engagement)
  {
    SocialPost(id, draft.platform, draft.content,
               if draft.engagement == "" then DefaultEngagement else draft.engagement,
               date, None, draft.author)
  }

  /** `posts.map(post => post.id === edited.id ? edited : post)`. */
  function ReplaceById(posts: seq<SocialPost>, edited: SocialPost): (r: seq<SocialPost>)
    ensures |r| == |posts|
    ensures forall i :: 0 <= i < |posts| ==> r[i] == if posts[i].id == edited.id then edited else posts[i]
  {
    if posts == [] then []
    else [if posts[0].id == edited.id then edited else posts[0]] + ReplaceById(posts[1..], edited)
  }

  /** The posts carrying `id`, counted. */
  function CountId(posts: seq<SocialPost>, id: string): (n: nat)
    ensures n <= |posts|
    ensures n == 0 <==> forall i :: 0 <= i < |posts| ==> posts[i].id != id
  {
    if posts == [] then 0 else (if posts[0].id == id then 1 else 0) + CountId(posts[1..], id)
  }

  /** `posts.filter(post => post.id !== id)`. */
  function RemoveById(posts: seq<SocialPost>, id: string): (r: seq<SocialPost>)
    ensures |r| == |posts| - CountId(posts, id)
    ensures forall p :: p in r <==> p in posts && p.id != id
    ensures CountId(posts, id) == 0 ==> r == posts
  {
    if posts == [] then []
    else (if posts[0].id == id then [] else [posts[0]]) + RemoveById(posts[1..], id)
  }

  /**
   * Removal keeps relative order: removing from a concatenation is removing from each part, so
   * the survivors of any prefix come before those of the rest.
   */
  lemma {:induction false} RemoveByIdDistributes(a: seq<SocialPost>, b: seq<SocialPost>, id: string)
    ensures RemoveById(a + b, id) == RemoveById(a, id) + RemoveById(b, id)
  {
    if a == [] {
      assert a + b == b;
    } else {
      var head := if a[0].id == id then [] else [a[0]];
      assert (a + b)[0] == a[0];
      assert (a + b)[1..] == a[1..] + b;
      calc {
        RemoveById(a + b, id);
        head + RemoveById(a[1..] + b, id);
        { RemoveByIdDistributes(a[1..], b, id); }
        head + (RemoveById(a[1..], id) + RemoveById(b, id));
        (head + RemoveById(a[1..], id)) + RemoveById(b, id);
        RemoveById(a, id) + RemoveById(b, id);
      }
    }
  }

  /** Editing a post keeps every id where it was, so the list's shape is unchanged by `updatePost`. */
  lemma ReplaceByIdKeepsIds(posts: seq<SocialPost>, edited: SocialPost)
    ensures forall i :: 0 <= i < |posts| ==> ReplaceById(posts, edited)[i].id == posts[i].id
  {
  }

  /** Removing an id twice is removing it once; afterwards no post carries it. */
  lemma RemoveByIdIdempotent(posts: seq<SocialPost>, id: string)
    ensures CountId(RemoveById(posts, id), id) == 0
    ensures RemoveById(RemoveById(posts, id), id) == RemoveById(posts, id)
  {
  }

  class AdminPanel {
    var posts: seq<SocialPost>
    var editingPost: Option<SocialPost>
    var newPost: PostDraft
    /** The `localStorage` slot "socialMediaPosts"; `None` when nothing was ever saved. */
    var stored: Option<seq<SocialPost>>

    /** The storage slot holds exactly the in-memory list. */
    ghost predicate Mirrored()
      reads this
    {
      stored == Some(posts)
    }

    /** The component's first render, over whatever the browser has saved. */
    constructor (saved: Option<seq<SocialPost>>)
      ensures posts == [] && editingPost.None? && newPost == EmptyDraft && stored == saved
    {
      posts, editingPost, newPost, stored := [], None, EmptyDraft, saved;
    }

    /** The mount effect: a saved list is used as it is, otherwise the defaults are shown and saved. */
    method Load(today: string, yesterday: string, twoDaysAgo: string)
      modifies this
      ensures Mirrored()
      ensures old(stored).Some? ==> stored == old(stored)
      ensures old(stored).None? ==> posts == DefaultPosts(today, yesterday, twoDaysAgo)
      ensures editingPost == old(editingPost) && newPost == old(newPost)
    {
      if stored.Some? {
        posts := stored.value;
      } else {
        var defaults := DefaultPosts(today, yesterday, twoDaysAgo);
        posts := defaults;
        stored := Some(defaults);
      }
    }

    /** `savePosts`: the list is replaced and written through to storage. */
    method SavePosts(updated: seq<SocialPost>)
      modifies this
      ensures posts == updated && Mirrored()
      ensures editingPost == old(editingPost) && newPost == old(newPost)
    {
      posts := updated;
      stored := Some(updated);
    }

    /**
     * `addPost`: content that is blank after trimming is ignored; otherwise the new post, with
     * its content untrimmed, goes in front of the list and the form is cleared.
     */
    method AddPost(id: string, date: string)
      modifies this
      ensures JsText.IsBlank(old(newPost.content)) ==>
        posts == old(posts) && stored == old(stored) && newPost == old(newPost) && editingPost == old(editingPost)
      ensures !JsText.IsBlank(old(newPost.content)) ==>
        && posts == [PostFromDraft(old(newPost), id, date)] + old(posts)
        && Mirrored()
        && newPost == EmptyDraft
        && editingPost == old(editingPost)
    {
      if JsText.Trim(newPost.content) == "" {
        return;
      }
      var post := PostFromDraft(newPost, id, date);
      SavePosts([post] + posts);
      newPost := EmptyDraft;
    }

    /** `updatePost`: with a post being edited, every post with its id is replaced and editing ends. */
    method UpdatePost()
      modifies this
      ensures old(editingPost).None? ==>
        posts == old(posts) && stored == old(stored) && editingPost == old(editingPost) && newPost == old(newPost)
      ensures old(editingPost).Some? ==>
        && posts == ReplaceById(old(posts), old(editingPost).value)
        && Mirrored()
        && editingPost.None?
        && newPost == old(newPost)
    {
      if editingPost.None? {
        return;
      }
      SavePosts(ReplaceById(posts, editingPost.value));
      editingPost := None;
    }

    /** `deletePost`: every post with the id goes, the others stay in order. */
    method DeletePost(id: string)
      modifies this
      ensures posts == RemoveById(old(posts), id) && Mirrored()
      ensures editingPost == old(editingPost) && newPost == old(newPost)
    {
      SavePosts(RemoveById(posts, id));
    }

    /** The Edit button of a listed post. */
    method StartEditing(post: SocialPost)
      modifies this
      ensures editingPost == Some(post)
      ensures posts == old(posts) && stored == old(stored) && newPost == old(newPost)
    {
      editingPost := Some(post);
    }

    /** The platform, engagement and content inputs of the edit form, which is shown only while editing. */
    method ReviseEditing(platform: Platform, content: string, engagement: string)
      requires editingPost.Some?
      modifies this
      ensures editingPost == Some(old(editingPost).value.(platform := platform, content := content, engagement := engagement))
      ensures posts == old(posts) && stored == old(stored) && newPost == old(newPost)
    {
      editingPost := Some(editingPost.value.(platform := platform, content := content, engagement := engagement));
    }

    /** The Cancel button of the edit form. */
    method CancelEditing()
      modifies this
      ensures editingPost.None?
      ensures posts == old(posts) && stored == old(stored) && newPost == old(newPost)
    {
      editingPost := None;
    }

    /** The platform, engagement and content inputs of the add form. */
    method ReviseDraft(platform: Platform, content: string, engagement: string)
      modifies this
      ensures newPost == old(newPost).(platform := platform, content := content, engagement := engagement)
      ensures posts == old(posts) && stored == old(stored) && editingPost == old(editingPost)
    {
      newPost := newPost.(platform := platform, content := content, engagement := engagement);
    }
  }
}
