/**
 * The blog loader (samyoga/lib/blog.ts): slugs from the posts directory listing, one
 * post from its markdown file with front-matter defaults, and all posts newest first.
 * The directory listing and the parsed files are inputs.
 */
module Blog {
  import opened Wrappers
  import opened Text
  import opened Seqs
  import opened Sorting

  /** The front-matter fields read; an absent or falsy one is `None`. */
  datatype FrontMatter = FrontMatter(
    title: Option<string>,
    date: Option<string>,
    excerpt: Option<string>,
    tags: Option<seq<string>>)

  /** Reading `<slug>.md`: absent, throwing while read or parsed, or its front matter and body. */
  datatype PostFile = Absent | Unreadable | Parsed(data: FrontMatter, content: string)

  datatype BlogPost = BlogPost(slug: string, title: string, date: string, excerpt: string, tags: seq<string>, content: string)

  const Suffix := ".md"

  function IsMarkdown(): string -> bool {
    (file: string) => EndsWith(file, Suffix)
  }

  /** `file.replace(/\.md$/, '')` on a name that ends in ".md". */
  function StripSuffix(file: string): (r: string)
    requires EndsWith(file, Suffix)
    ensures r + Suffix == file
  {
    assert file == file[..|file| - 3] + file[|file| - 3..];
    file[..|file| - 3]
  }

  /** `getPostSlugs()`; `listing` is `None` when the directory does not exist. */
  function PostSlugs(listing: Option<seq<string>>): (r: seq<string>)
    ensures listing.None? ==> r == []
    ensures listing.Some? ==> |r| == |Filter(listing.value, IsMarkdown())|
    ensures listing.Some? ==>
      forall i :: 0 <= i < |r| ==> r[i] + Suffix == Filter(listing.value, IsMarkdown())[i]
  {
    if listing.None? then []
    else
      var files := Filter(listing.value, IsMarkdown());
      seq(|files|, i requires 0 <= i < |files| => StripSuffix(files[i]))
  }

  /** Every markdown entry of the listing gives a slug, and every slug names one. */
  lemma SlugsAreTheMarkdownEntries(listing: seq<string>)
    ensures forall i :: 0 <= i < |PostSlugs(Some(listing))| ==> PostSlugs(Some(listing))[i] + Suffix in listing
    ensures forall file :: file in listing && EndsWith(file, Suffix) ==> file[..|file| - 3] in PostSlugs(Some(listing))
  {
    var files := Filter(listing, IsMarkdown());
    var slugs := PostSlugs(Some(listing));
    FilterKeeps(listing, IsMarkdown());
    forall file | file in listing && EndsWith(file, Suffix)
      ensures file[..|file| - 3] in slugs
    {
      var k :| 0 <= k < |listing| && listing[k] == file;
      assert IsMarkdown()(listing[k]);
      assert file in files;
      var j :| 0 <= j < |files| && files[j] == file;
      assert slugs[j] + Suffix == file;
      assert slugs[j] == file[..|file| - 3];
    }
  }

  /** `getPostBySlug(slug)`: `null` for an absent or unreadable file; missing fields default. */
  function PostBySlug(slug: string, file: PostFile): (r: Option<BlogPost>)
    ensures r.None? <==> !file.Parsed?
    ensures r.Some? ==>
      && r.value.slug == slug && r.value.content == file.content
      && r.value.title == file.data.title.GetOr("")
      && r.value.date == file.data.date.GetOr("")
      && r.value.excerpt == file.data.excerpt.GetOr("")
      && r.value.tags == file.data.tags.GetOr([])
  {
    match file
    case Parsed(data, content) =>
      Some(BlogPost(slug, data.title.GetOr(""), data.date.GetOr(""), data.excerpt.GetOr(""), data.tags.GetOr([]), content))
    case _ => None
  }

  /** JavaScript's `<` on strings: lexicographic order of the characters. */
  predicate Less(a: string, b: string)
    decreases |a|
  {
    if a == [] then b != []
    else if b == [] then false
    else if a[0] != b[0] then a[0] < b[0]
    else Less(a[1..], b[1..])
  }

  lemma {:induction false} LessIrreflexive(a: string)
    ensures !Less(a, a)
  {
    if a != [] {
      LessIrreflexive(a[1..]);
    }
  }

  lemma {:induction false} LessTrichotomous(a: string, b: string)
    ensures a == b || Less(a, b) || Less(b, a)
  {
    if a != [] && b != [] && a[0] == b[0] {
      LessTrichotomous(a[1..], b[1..]);
      assert a == [a[0]] + a[1..] && b == [b[0]] + b[1..];
    }
  }

  lemma {:induction false} LessTransitive(a: string, b: string, c: string)
    requires Less(a, b) && Less(b, c)
    ensures Less(a, c)
  {
    if a != [] && a[0] == b[0] && b[0] == c[0] {
      LessTransitive(a[1..], b[1..], c[1..]);
    }
  }

  /** The comparator `a.date < b.date ? 1 : -1`: `a` may come first unless its date is earlier. */
  function NewerFirst(a: BlogPost, b: BlogPost): bool {
    !Less(a.date, b.date)
  }

  lemma NewerFirstTotal()
    ensures TotalPreorder(NewerFirst)
  {
    forall a: BlogPost, b: BlogPost ensures NewerFirst(a, b) || NewerFirst(b, a) {
      if Less(a.date, b.date) && Less(b.date, a.date) {
        LessTransitive(a.date, b.date, a.date);
        LessIrreflexive(a.date);
      }
    }
    forall a: BlogPost, b: BlogPost, c: BlogPost | NewerFirst(a, b) && NewerFirst(b, c)
      ensures NewerFirst(a, c)
    {
      if Less(a.date, c.date) {
        LessTrichotomous(a.date, b.date);
        if b.date == a.date {
        } else if Less(b.date, a.date) {
          LessTransitive(b.date, a.date, c.date);
        }
      }
    }
  }

  /** The posts that exist, in slug order: `.map(getPostBySlug).filter(post !== null)`. */
  function Present(slugs: seq<string>, files: string -> PostFile): (r: seq<BlogPost>)
    ensures |r| <= |slugs|
    ensures forall i :: 0 <= i < |r| ==> PostBySlug(r[i].slug, files(r[i].slug)) == Some(r[i])
    ensures forall i :: 0 <= i < |slugs| && files(slugs[i]).Parsed? ==> PostBySlug(slugs[i], files(slugs[i])).value in r
    ensures forall i :: 0 <= i < |r| ==> r[i].slug in slugs
  {
    if slugs == [] then []
    else
      var rest := Present(slugs[1..], files);
      var post := PostBySlug(slugs[0], files(slugs[0]));
      var r := (if post.Some? then [post.value] else []) + rest;
      assert forall i :: 1 <= i < |slugs| ==> slugs[i] == slugs[1..][i - 1];
      r
  }

  /** One slug gives its post when the file parses and nothing otherwise. */
  lemma PresentSingle(slug: string, files: string -> PostFile)
    ensures Present([slug], files) == if files(slug).Parsed? then [PostBySlug(slug, files(slug)).value] else []
  {
    assert [slug][1..] == [];
  }

  /** The posts of a concatenation of listings are the posts of each, in listing order. */
  lemma {:induction false} PresentAppend(a: seq<string>, b: seq<string>, files: string -> PostFile)
    ensures Present(a + b, files) == Present(a, files) + Present(b, files)
  {
    if a == [] {
      assert a + b == b;
    } else {
      assert (a + b)[0] == a[0] && (a + b)[1..] == a[1..] + b;
      PresentAppend(a[1..], b, files);
    }
  }

  /**
   * `getAllPosts()`: every readable post, newest date first. The comparator never answers
   * 0, so posts with equal dates may come in any order.
   */
  function AllPosts(listing: Option<seq<string>>, files: string -> PostFile): (r: seq<BlogPost>)
    ensures multiset(r) == multiset(Present(PostSlugs(listing), files))
    ensures SortedBy(r, NewerFirst)
  {
    NewerFirstTotal();
    SortBySorted(Present(PostSlugs(listing), files), NewerFirst);
    SortBy(Present(PostSlugs(listing), files), NewerFirst)
  }

  /** A missing directory gives no posts. */
  lemma NoDirectoryNoPosts(files: string -> PostFile)
    ensures AllPosts(None, files) == []
  {
    assert |AllPosts(None, files)| == |multiset(AllPosts(None, files))| == 0;
  }
}
