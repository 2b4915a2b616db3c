/** The blog post service: the `postSubject` channel with the list of posts and
    the selected post, and the requests whose answers update it. */
module PostService {
  import opened Common

  /** A post. `created_at` is kept as the text the server sends. */
  datatype Post = Post(
    id: int,
    title: string,
    textoinfo: string,
    textoprograma1: string,
    textoprograma2: string,
    textodresscode: string,
    textoartistas: string,
    textodjs: string,
    textopases: string,
    created_at: string,
    fraseclave: string,
    tituloseo: string,
    slug: string,
    metadescripcion: string,
    altportada: string,
    imagenportada: string)

  /** A value of the channel: a list of posts, `null` (NoPost), or one post. */
  datatype PostEntry = Posts(posts: seq<Post>) | NoPost | OnePost(post: Post)

  /** The file chosen as cover image. */
  datatype ImageFile = ImageFile(name: string)

  /** One part of the multipart body: the image, or the post as JSON text. */
  datatype FormPart = FilePart(name: string, file: ImageFile) | TextPart(name: string, text: string)

  function InitialPostState(): (m: map<string, PostEntry>)
    ensures m.Keys == {"posts", "newPost"}
    ensures m["posts"] == Posts([]) && m["newPost"] == NoPost
  {
    map["posts" := Posts([]), "newPost" := NoPost]
  }

  /** The list after `createPost`: the new post first. */
  function Prepended(ps: seq<Post>, p: Post): (r: seq<Post>)
    ensures |r| == |ps| + 1 && r[0] == p && r[1..] == ps
  {
    [p] + ps
  }

  /** The list after `updatePost`: every post with the answer's id replaced by
      the answer, the others untouched. */
  function Replaced(ps: seq<Post>, p: Post): (r: seq<Post>)
    ensures |r| == |ps|
    ensures forall i :: 0 <= i < |ps| ==> r[i] == (if ps[i].id == p.id then p else ps[i])
  {
    seq(|ps|, i requires 0 <= i < |ps| => if ps[i].id == p.id then p else ps[i])
  }

  /** The list after `deletePost(id)`: the posts with another id, in order. */
  function Removed(ps: seq<Post>, id: int): (r: seq<Post>)
    ensures |r| <= |ps|
    ensures forall i :: 0 <= i < |r| ==> r[i].id != id && r[i] in ps
    ensures forall i :: 0 <= i < |ps| && ps[i].id != id ==> ps[i] in r
  {
    if ps == [] then []
    else if ps[0].id != id then [ps[0]] + Removed(ps[1..], id)
    else Removed(ps[1..], id)
  }

  /** Deleting keeps the relative order: it works piece by piece. */
  lemma {:induction false} RemovedAppend(a: seq<Post>, b: seq<Post>, id: int)
    ensures Removed(a + b, id) == Removed(a, id) + Removed(b, id)
  {
    if a == [] {
      assert a + b == b;
    } else {
      assert (a + b)[1..] == a[1..] + b;
      RemovedAppend(a[1..], b, id);
    }
  }

  /** Deleting an id no post has changes nothing. */
  lemma {:induction false} RemovedAbsent(ps: seq<Post>, id: int)
    requires forall i :: 0 <= i < |ps| ==> ps[i].id != id
    ensures Removed(ps, id) == ps
  {
    if ps != [] {
      RemovedAbsent(ps[1..], id);
    }
  }

  /** Deleting a post just created, whose id was new, gives the list back. */
  lemma CreateThenDelete(ps: seq<Post>, p: Post)
    requires forall i :: 0 <= i < |ps| ==> ps[i].id != p.id
    ensures Removed(Prepended(ps, p), p.id) == ps
  {
    assert Prepended(ps, p)[1..] == ps;
    RemovedAbsent(ps, p.id);
  }

  /** Updating twice with the same answer is updating once, and an update
      followed by a delete of that id is the delete alone. */
  lemma {:induction false} ReplacedThenRemoved(ps: seq<Post>, p: Post)
    ensures Replaced(Replaced(ps, p), p) == Replaced(ps, p)
    ensures Removed(Replaced(ps, p), p.id) == Removed(ps, p.id)
  {
    if ps != [] {
      ReplacedThenRemoved(ps[1..], p);
      assert Replaced(ps, p)[1..] == Replaced(ps[1..], p);
    }
  }

  /** The body of `createPost`: the image and the post, always both. */
  function CreateFormData(image: ImageFile, json: string): (parts: seq<FormPart>)
    ensures |parts| == 2
    ensures parts[0] == FilePart("imagenportada", image) && parts[1] == TextPart("data", json)
  {
    [FilePart("imagenportada", image), TextPart("data", json)]
  }

  /** The body of `updatePost`: the image only when one is given. */
  function UpdateFormData(image: Option<ImageFile>, json: string): (parts: seq<FormPart>)
    ensures 1 <= |parts| && parts[|parts| - 1] == TextPart("data", json)
    ensures image.Some? <==> |parts| == 2
    ensures image.Some? ==> parts[0] == FilePart("imagenportada", image.value)
  {
    if image.Some? then [FilePart("imagenportada", image.value), TextPart("data", json)]
    else [TextPart("data", json)]
  }

  class PostsService {
    var postSubject: map<string, PostEntry>

    /** The channel always holds a list under `posts`. */
    predicate Valid()
      reads this
    {
      "posts" in postSubject && postSubject["posts"].Posts?
    }

    function PostList(): seq<Post>
      reads this
      requires Valid()
    {
      postSubject["posts"].posts
    }

    constructor ()
      ensures Valid() && postSubject == InitialPostState() && PostList() == []
    {
      postSubject := InitialPostState();
    }

    /** `getPosts()`: the answer replaces the list. */
    method GetPosts(outcome: Outcome<seq<Post>>) returns (result: Outcome<seq<Post>>)
      requires Valid()
      modifies this
      ensures Valid() && result == outcome
      ensures outcome.Success? ==> postSubject == old(postSubject)["posts" := Posts(outcome.value)]
      ensures outcome.Failure? ==> postSubject == old(postSubject)
    {
      if outcome.Success? {
        postSubject := postSubject["posts" := Posts(outcome.value)];
      }
      result := outcome;
    }

    /** `createPost(image, post)`: the answer's post goes first in the list. */
    method CreatePost(image: ImageFile, json: string, outcome: Outcome<Post>)
      returns (parts: seq<FormPart>, result: Outcome<Post>)
      requires Valid()
      modifies this
      ensures Valid() && result == outcome && parts == CreateFormData(image, json)
      ensures outcome.Success? ==>
                postSubject == old(postSubject)["posts" := Posts(Prepended(old(PostList()), outcome.value))]
      ensures outcome.Failure? ==> postSubject == old(postSubject)
    {
      parts := CreateFormData(image, json);
      if outcome.Success? {
        postSubject := postSubject["posts" := Posts(Prepended(PostList(), outcome.value))];
      }
      result := outcome;
    }

    /** `updatePost(image, post)`: the answer replaces the posts with its id. */
    method UpdatePost(image: Option<ImageFile>, json: string, outcome: Outcome<Post>)
      returns (parts: seq<FormPart>, result: Outcome<Post>)
      requires Valid()
      modifies this
      ensures Valid() && result == outcome && parts == UpdateFormData(image, json)
      ensures outcome.Success? ==>
                postSubject == old(postSubject)["posts" := Posts(Replaced(old(PostList()), outcome.value))]
      ensures outcome.Failure? ==> postSubject == old(postSubject)
    {
      parts := UpdateFormData(image, json);
      if outcome.Success? {
        postSubject := postSubject["posts" := Posts(Replaced(PostList(), outcome.value))];
      }
      result := outcome;
    }

    /** `deletePost(id)`: on success the posts with that id leave the list. */
    method DeletePost(id: int, outcome: Outcome<()>) returns (result: Outcome<()>)
      requires Valid()
      modifies this
      ensures Valid() && result == outcome
      ensures outcome.Success? ==>
                postSubject == old(postSubject)["posts" := Posts(Removed(old(PostList()), id))]
      ensures outcome.Failure? ==> postSubject == old(postSubject)
    {
      if outcome.Success? {
        postSubject := postSubject["posts" := Posts(Removed(PostList(), id))];
      }
      result := outcome;
    }

    /** `getPostById`, `getPostBySlug` and `getPostByTitle`: the answer is
        published under `post`; the list is untouched. */
    method GetPost(outcome: Outcome<Post>) returns (result: Outcome<Post>)
      requires Valid()
      modifies this
      ensures Valid() && result == outcome && PostList() == old(PostList())
      ensures outcome.Success? ==> postSubject == old(postSubject)["post" := OnePost(outcome.value)]
      ensures outcome.Failure? ==> postSubject == old(postSubject)
    {
      if outcome.Success? {
        postSubject := postSubject["post" := OnePost(outcome.value)];
      }
      result := outcome;
    }
  }
}
