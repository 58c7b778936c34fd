/**
 * src/components/post-form/PostForm.jsx: the slug normaliser, the rule that keeps the slug in
 * step with the title, and the submit sequence (upload, replace the image, save, navigate).
 */
module PostForm {
  import opened Wrappers
  import opened JsValue

  /** `\s` over ASCII: space, tab, line feed, vertical tab, form feed, carriage return. */
  predicate IsSpace(c: char) {
    c == ' ' || c == '\t' || c == '\n' || c == '\U{B}' || c == '\U{C}' || c == '\r'
  }

  /** `\w`: ASCII letters, digits and the underscore. */
  predicate IsWordChar(c: char) {
    ('a' <= c <= 'z') || ('A' <= c <= 'Z') || ('0' <= c <= '9') || c == '_'
  }

  /** The characters `[\w-]` keeps. */
  predicate IsSlugChar(c: char) {
    IsWordChar(c) || c == '-'
  }

  /** The characters a slug is made of: `a-z`, `0-9`, `_` and `-`. */
  predicate IsSlugOutputChar(c: char) {
    ('a' <= c <= 'z') || ('0' <= c <= '9') || c == '_' || c == '-'
  }

  predicate NoSpace(s: string) {
    forall i :: 0 <= i < |s| ==> !IsSpace(s[i])
  }

  predicate NoDoubleHyphen(s: string) {
    forall i :: 0 <= i < |s| - 1 ==> !(s[i] == '-' && s[i + 1] == '-')
  }

  predicate NoUpper(s: string) {
    forall i :: 0 <= i < |s| ==> !('A' <= s[i] <= 'Z')
  }

  predicate AllSlugOutput(s: string) {
    forall i :: 0 <= i < |s| ==> IsSlugOutputChar(s[i])
  }

  predicate IsSlugText(s: string) {
    AllSlugOutput(s) && NoDoubleHyphen(s)
  }

  /** `s` with its leading whitespace removed. */
  function TrimStart(s: string): (r: string)
    ensures |r| <= |s| && r == s[|s| - |r|..]
    ensures r == [] || !IsSpace(r[0])
    ensures s != [] && IsSpace(s[0]) ==> |r| < |s|
    ensures s != [] && !IsSpace(s[0]) ==> r == s
  {
    if s != [] && IsSpace(s[0]) then TrimStart(s[1..]) else s
  }

  /** `s` with its trailing whitespace removed. */
  function TrimEnd(s: string): (r: string)
    ensures |r| <= |s| && r == s[..|r|]
    ensures r == [] || !IsSpace(r[|r| - 1])
    ensures s != [] && !IsSpace(s[|s| - 1]) ==> r == s
  {
    if s != [] && IsSpace(s[|s| - 1]) then TrimEnd(s[..|s| - 1]) else s
  }

  /** `String.prototype.trim`. */
  function Trim(s: string): (r: string)
    ensures r == [] || (!IsSpace(r[0]) && !IsSpace(r[|r| - 1]))
  {
    var t := TrimStart(s);
    var r := TrimEnd(t);
    assert r != [] ==> r[0] == t[0];
    r
  }

  /** `toLowerCase` on one ASCII character. */
  function LowerChar(c: char): (d: char)
    ensures 'A' <= c <= 'Z' ==> 'a' <= d <= 'z'
    ensures !('A' <= c <= 'Z') ==> d == c
  {
    if 'A' <= c <= 'Z' then (c as int + 32) as char else c
  }

  /** `toLowerCase` over ASCII. */
  function Lower(s: string): (r: string)
    ensures |r| == |s|
    ensures forall i :: 0 <= i < |s| ==> r[i] == LowerChar(s[i])
  {
    if s == [] then [] else [LowerChar(s[0])] + Lower(s[1..])
  }

  /** `replace(/\s+/g, "-")`: every maximal whitespace run becomes one hyphen. */
  function Hyphenate(s: string): (r: string)
    ensures NoSpace(r)
    ensures NoUpper(s) ==> NoUpper(r)
    decreases |s|
  {
    if s == [] then []
    else if IsSpace(s[0]) then
      var t := TrimStart(s);
      SuffixKeepsNoUpper(s, t);
      ConsKeeps('-', Hyphenate(t));
      "-" + Hyphenate(t)
    else
      SuffixKeepsNoUpper(s, s[1..]);
      ConsKeeps(s[0], Hyphenate(s[1..]));
      [s[0]] + Hyphenate(s[1..])
  }

  /** A suffix of a text without capitals has none either. */
  lemma SuffixKeepsNoUpper(s: string, t: string)
    requires |t| <= |s| && t == s[|s| - |t|..]
    ensures NoUpper(s) ==> NoUpper(t)
  {
    assert forall i :: 0 <= i < |t| ==> t[i] == s[|s| - |t| + i];
  }

  /** Prefixing one character keeps `NoSpace` and `NoUpper` when the character has the property. */
  lemma ConsKeeps(c: char, r: string)
    ensures !IsSpace(c) && NoSpace(r) ==> NoSpace([c] + r)
    ensures !('A' <= c <= 'Z') && NoUpper(r) ==> NoUpper([c] + r)
  {
    assert forall i :: 0 < i <= |r| ==> ([c] + r)[i] == r[i - 1];
  }

  /** `replace(/[^\w-]+/g, "")`: every character outside `[\w-]` is dropped. */
  function Strip(s: string): (r: string)
    ensures forall i :: 0 <= i < |r| ==> IsSlugChar(r[i])
    ensures NoUpper(s) ==> NoUpper(r)
  {
    if s == [] then []
    else if IsSlugChar(s[0]) then [s[0]] + Strip(s[1..])
    else Strip(s[1..])
  }

  /** `s` with its leading hyphens removed. */
  function DropHyphens(s: string): (r: string)
    ensures |r| <= |s| && r == s[|s| - |r|..]
    ensures r == [] || r[0] != '-'
    ensures s != [] && s[0] == '-' ==> |r| < |s|
  {
    if s != [] && s[0] == '-' then DropHyphens(s[1..]) else s
  }

  /** `replace(/--+/g, "-")`: every run of hyphens becomes one. */
  function Collapse(s: string): (r: string)
    ensures NoDoubleHyphen(r)
    ensures AllSlugOutput(s) ==> AllSlugOutput(r)
    ensures r == [] <==> s == []
    ensures r != [] ==> r[0] == s[0]
    decreases |s|
  {
    if s == [] then []
    else if s[0] == '-' then
      var t := DropHyphens(s);
      var rest := Collapse(t);
      assert rest != [] ==> rest[0] == t[0] && rest[0] != '-';
      "-" + rest
    else
      [s[0]] + Collapse(s[1..])
  }

  /** The chain of `slugTransform` applied to a string: only `a-z`, `0-9`, `_` and `-` remain, never two hyphens in a row. */
  function Slugify(s: string): (slug: string)
    ensures IsSlugText(slug)
  {
    var st := Strip(Hyphenate(Lower(Trim(s))));
    assert AllSlugOutput(st);
    Collapse(st)
  }

  /** `slugTransform(value)` (PostForm.jsx:56-64): `None` is `undefined`. */
  function SlugTransform(value: Option<Value>): (r: Option<string>)
    ensures r.Some? <==> value.Some? && value.value.Str? && value.value.s != ""
    ensures r.Some? ==> r.value == Slugify(value.value.s)
  {
    if Truthy(value) && value.value.Str? then Some(Slugify(value.value.s)) else None
  }

  lemma {:induction false} TrimStartNoSpace(s: string)
    requires NoSpace(s)
    ensures TrimStart(s) == s
  {
  }

  lemma {:induction false} TrimEndNoSpace(s: string)
    requires NoSpace(s)
    ensures TrimEnd(s) == s
  {
  }

  lemma {:induction false} LowerIdentity(s: string)
    requires forall i :: 0 <= i < |s| ==> IsSlugOutputChar(s[i])
    ensures Lower(s) == s
  {
  }

  lemma {:induction false} HyphenateNoSpace(s: string)
    requires NoSpace(s)
    ensures Hyphenate(s) == s
    decreases |s|
  {
    if s != [] {
      assert NoSpace(s[1..]) by {
        forall i | 0 <= i < |s[1..]| ensures !IsSpace(s[1..][i]) {
          assert s[1..][i] == s[i + 1];
        }
      }
      HyphenateNoSpace(s[1..]);
    }
  }

  lemma {:induction false} StripIdentity(s: string)
    requires forall i :: 0 <= i < |s| ==> IsSlugChar(s[i])
    ensures Strip(s) == s
  {
    if s != [] {
      assert forall i :: 0 <= i < |s[1..]| ==> s[1..][i] == s[i + 1];
      StripIdentity(s[1..]);
    }
  }

  lemma {:induction false} CollapseIdentity(s: string)
    requires NoDoubleHyphen(s)
    ensures Collapse(s) == s
    decreases |s|
  {
    if s != [] {
      assert NoDoubleHyphen(s[1..]) by {
        forall i | 0 <= i < |s[1..]| - 1 ensures !(s[1..][i] == '-' && s[1..][i + 1] == '-') {
          assert s[1..][i] == s[i + 1] && s[1..][i + 1] == s[i + 2];
        }
      }
      CollapseIdentity(s[1..]);
      if s[0] == '-' {
        assert |s| == 1 || s[1] != '-';
        assert DropHyphens(s) == s[1..];
      }
    }
  }

  /** A slug is a fixed point of the chain. */
  lemma SlugifyFixes(s: string)
    requires IsSlugText(s)
    ensures Slugify(s) == s
  {
    assert NoSpace(s);
    TrimStartNoSpace(s);
    TrimEndNoSpace(s);
    LowerIdentity(s);
    HyphenateNoSpace(s);
    StripIdentity(s);
    CollapseIdentity(s);
  }

  /** `slugTransform` is idempotent on its non-empty outputs; an empty output maps to `undefined`. */
  lemma SlugTransformIdempotent(value: Option<Value>)
    requires SlugTransform(value).Some?
    ensures var out := SlugTransform(value).value;
      SlugTransform(Some(Str(out))) == if out == "" then None else Some(out)
  {
    var out := Slugify(value.value.s);
    SlugTextFixed(out);
  }

  /** A slug text passes through `slugTransform` unchanged; the empty one becomes `undefined`. */
  lemma SlugTextFixed(out: string)
    requires IsSlugText(out)
    ensures SlugTransform(Some(Str(out))) == if out == "" then None else Some(out)
  {
    if out != "" {
      SlugifyFixes(out);
    }
  }

  /** Whitespace never survives: the slug of any string has no whitespace. */
  lemma SlugHasNoSpace(s: string)
    ensures NoSpace(Slugify(s))
  {
  }

  /** `TrimStart` drops exactly a leading run of whitespace. */
  lemma {:induction false} TrimStartRun(run: string, b: string)
    requires forall i :: 0 <= i < |run| ==> IsSpace(run[i])
    requires b == [] || !IsSpace(b[0])
    ensures TrimStart(run + b) == b
    decreases |run|
  {
    if run != [] {
      assert (run + b)[1..] == run[1..] + b;
      TrimStartRun(run[1..], b);
    } else {
      assert run + b == b;
    }
  }

  /**
   * A whitespace run after a space-free word becomes exactly one hyphen, whatever its length:
   * `a + run + b` hyphenates to `a + "-"` followed by the hyphenation of `b`.
   */
  lemma {:induction false} WhitespaceRunIsOneHyphen(a: string, run: string, b: string)
    requires NoSpace(a)
    requires run != [] && forall i :: 0 <= i < |run| ==> IsSpace(run[i])
    requires b == [] || !IsSpace(b[0])
    ensures Hyphenate(a + run + b) == a + "-" + Hyphenate(b)
    decreases |a|
  {
    if a == [] {
      assert a + run + b == run + b;
      TrimStartRun(run, b);
    } else {
      assert (a + run + b)[0] == a[0];
      assert (a + run + b)[1..] == a[1..] + run + b;
      assert NoSpace(a[1..]) by {
        forall i | 0 <= i < |a[1..]| ensures !IsSpace(a[1..][i]) {
          assert a[1..][i] == a[i + 1];
        }
      }
      WhitespaceRunIsOneHyphen(a[1..], run, b);
      assert a + "-" + Hyphenate(b) == [a[0]] + (a[1..] + "-" + Hyphenate(b));
    }
  }

  /** The post being edited: its document id and its current image. */
  datatype Post = Post(id: string, featuredImage: string)

  /** The calls `submit` makes, in order. */
  datatype Call =
    | UploadFile
    | DeleteFile(fileId: string)
    | UpdatePost(postId: string, featuredImage: string)
    | CreatePost(featuredImage: string)
    | Navigate(path: string)

  /** The image an edit saves: the new upload if there is one, else the old image. */
  function EditedImage(post: Post, file: Option<string>): (id: string)
    ensures file.Some? ==> id == file.value
    ensures file.None? ==> id == post.featuredImage
  {
    match file
    case Some(f) => f
    case None => post.featuredImage
  }

  /** The form's state: the slug field, the loading flag and the calls made so far. */
  class PostFormState {
    var slug: Option<string>
    var loading: bool
    var calls: seq<Call>
    const post: Option<Post>

    /** `defaultValues.slug` is the edited post's id, or empty. */
    constructor(post: Option<Post>)
      ensures this.post == post && !loading && calls == []
      ensures slug == Some(if post.Some? then post.value.id else "")
    {
      this.post := post;
      slug := Some(if post.Some? then post.value.id else "");
      loading := false;
      calls := [];
    }

    /** The `watch` callback (PostForm.jsx:66-74): only a change of `title` rewrites the slug. */
    method OnChange(name: string, title: Option<Value>)
      modifies this
      ensures name == "title" ==> slug == SlugTransform(title)
      ensures name != "title" ==> slug == old(slug)
      ensures loading == old(loading) && calls == old(calls)
    {
      if name == "title" {
        slug := SlugTransform(title);
      }
    }

    /**
     * `submit(data)` (PostForm.jsx:23-54). `hasImage` says whether a file was chosen,
     * `uploaded` is what `uploadFile` returns (`None` for `false`), `updated` what `updatePost`
     * returns when editing (`None` when it logged an error), and `created` what `createPost`
     * settles to when creating (`Failure` when it rejects). Returns whether `submit` rejected.
     */
    method Submit(hasImage: bool, uploaded: Option<string>, updated: Option<string>, created: Result<string, string>)
      returns (rejected: bool)
      modifies this
      ensures slug == old(slug)
      ensures post.Some? ==>
        var file := if hasImage then uploaded else None;
        !rejected && !loading &&
        calls == old(calls) + (if hasImage then [UploadFile] else []) +
                 (if file.Some? then [DeleteFile(post.value.featuredImage)] else []) +
                 [UpdatePost(post.value.id, EditedImage(post.value, file))] +
                 (if updated.Some? then [Navigate("/post/" + updated.value)] else [])
      ensures post.None? && uploaded.None? ==> !rejected && !loading && calls == old(calls) + [UploadFile]
      ensures post.None? && uploaded.Some? && created.Failure? ==>
        rejected && loading && calls == old(calls) + [UploadFile, CreatePost(uploaded.value)]
      ensures post.None? && uploaded.Some? && created.Success? ==>
        !rejected && !loading && calls == old(calls) + [UploadFile, CreatePost(uploaded.value), Navigate("/post/" + created.value)]
    {
      loading := true;
      if post.Some? {
        var file: Option<string> := None;
        if hasImage {
          calls := calls + [UploadFile];
          file := uploaded;
        }
        if file.Some? {
          calls := calls + [DeleteFile(post.value.featuredImage)];
        }
        calls := calls + [UpdatePost(post.value.id, EditedImage(post.value, file))];
        if updated.Some? {
          calls := calls + [Navigate("/post/" + updated.value)];
        }
      } else {
        calls := calls + [UploadFile];
        if uploaded.Some? {
          calls := calls + [CreatePost(uploaded.value)];
          if created.Failure? {
            return true;
          }
          calls := calls + [Navigate("/post/" + created.value)];
        }
      }
      loading := false;
      rejected := false;
    }
  }
}
