/** The news page's choice of a featured post, the remaining grid, and the
    placeholder cards that pad a short list. */
module News {
  import opened Base

  datatype BlogPost = BlogPost(id: string, title: string, slug: string)

  /** The post the page features when present. */
  const FeaturedId := "6"

  /** `posts.findIndex(p => p.id === id)` as an option. */
  function FindById(posts: seq<BlogPost>, id: string): (r: Option<nat>)
    ensures r.Some? ==> r.value < |posts| && posts[r.value].id == id &&
                        forall j :: 0 <= j < r.value ==> posts[j].id != id
    ensures r.None? ==> forall j :: 0 <= j < |posts| ==> posts[j].id != id
  {
    if posts == [] then None
    else if posts[0].id == id then Some(0)
    else
      match FindById(posts[1..], id)
      case None => None
      case Some(k) => Some(k + 1)
  }

  /** `blogPosts.find(post => post.id === '6') || blogPosts[0]` */
  function FeaturedPost(posts: seq<BlogPost>): (r: Option<BlogPost>)
    ensures r.None? <==> posts == []
    ensures r.Some? ==> r.value in posts
    ensures (exists i :: 0 <= i < |posts| && posts[i].id == FeaturedId) ==>
              r.Some? && r.value.id == FeaturedId &&
              exists i :: 0 <= i < |posts| && posts[i] == r.value && forall j :: 0 <= j < i ==> posts[j].id != FeaturedId
    ensures (forall i :: 0 <= i < |posts| ==> posts[i].id != FeaturedId) && posts != [] ==> r == Some(posts[0])
  {
    match FindById(posts, FeaturedId)
    case Some(i) => Some(posts[i])
    case None => if posts == [] then None else Some(posts[0])
  }

  /** `xs` occurs in `ys` in order, possibly with gaps. */
  predicate IsSubsequence(xs: seq<BlogPost>, ys: seq<BlogPost>)
    decreases |ys|
  {
    xs == [] ||
    (ys != [] && ((xs[0] == ys[0] && IsSubsequence(xs[1..], ys[1..])) || IsSubsequence(xs, ys[1..])))
  }

  /** `posts.filter(p => p.id !== id)` */
  function Without(posts: seq<BlogPost>, id: string): (r: seq<BlogPost>)
    ensures IsSubsequence(r, posts)
    ensures forall p :: p in r ==> p.id != id
    ensures forall p: BlogPost :: p.id != id ==> multiset(r)[p] == multiset(posts)[p]
  {
    if posts == [] then []
    else
      var rest := Without(posts[1..], id);
      assert posts == [posts[0]] + posts[1..];
      if posts[0].id == id then
        rest
      else
        [posts[0]] + rest
  }

  /** The grid: every post but those sharing the featured post's id, in
      their original order. */
  function OtherPosts(posts: seq<BlogPost>): (r: seq<BlogPost>)
    ensures IsSubsequence(r, posts)
    ensures FeaturedPost(posts).Some? ==> forall p :: p in r ==> p.id != FeaturedPost(posts).value.id
    ensures FeaturedPost(posts).Some? ==>
              forall p: BlogPost :: p.id != FeaturedPost(posts).value.id ==> multiset(r)[p] == multiset(posts)[p]
    ensures FeaturedPost(posts).Some? ==> FeaturedPost(posts).value !in r && |r| < |posts|
  {
    var featured := FeaturedPost(posts);
    if featured.None? then posts
    else
      var r := Without(posts, featured.value.id);
      SubsequenceLength(r, posts);
      assert |r| != |posts| by {
        if |r| == |posts| {
          SubsequenceSameLength(r, posts);
        }
      }
      r
  }

  lemma {:induction false} SubsequenceLength(xs: seq<BlogPost>, ys: seq<BlogPost>)
    requires IsSubsequence(xs, ys)
    ensures |xs| <= |ys|
    decreases |ys|
  {
    if xs != [] {
      if xs[0] == ys[0] && IsSubsequence(xs[1..], ys[1..]) {
        SubsequenceLength(xs[1..], ys[1..]);
      } else {
        SubsequenceLength(xs, ys[1..]);
      }
    }
  }

  lemma {:induction false} SubsequenceSameLength(xs: seq<BlogPost>, ys: seq<BlogPost>)
    requires IsSubsequence(xs, ys) && |xs| == |ys|
    ensures xs == ys
    decreases |ys|
  {
    if xs != [] {
      if xs[0] == ys[0] && IsSubsequence(xs[1..], ys[1..]) {
        SubsequenceSameLength(xs[1..], ys[1..]);
      } else {
        SubsequenceLength(xs, ys[1..]);
      }
    }
  }

  /** `Math.max(0, 4 - blogPosts.length)` cards, rendered only below four
      posts: together with the posts the page shows at least four cards. */
  function PlaceholderCount(posts: seq<BlogPost>): (n: nat)
    ensures |posts| >= 4 ==> n == 0
    ensures |posts| < 4 ==> |posts| + n == 4
  {
    if |posts| < 4 then 4 - |posts| else 0
  }
}
