/** The community feed card: a fixed list of posts shown two more at a
    time, and the composer's greeting with the user's display name. */
module Feed {
  import opened Common
  import UserProfile

  datatype Post = Post(avatar: string, fallback: string, name: string, time: string, content: string)

  /** The `posts` constant. */
  const SamplePosts: seq<Post> := [
    Post("https://picsum.photos/100?random=13", "JD", "Jane Doe", "5m atrás",
      "Acabei de terminar o treino 'Força Total do Corpo' e estou me sentindo incrível! 🔥 Que bom que me juntei a esta comunidade."),
    Post("https://picsum.photos/100?random=14", "MS", "Mark Smith", "1h atrás",
      "Alguma dica para se manter motivado durante um desafio de 30 dias? O dia 5 está me pegando! 😅"),
    Post("https://picsum.photos/100?random=15", "LR", "Linda Ray", "3h atrás",
      "As receitas de smoothie saudável são uma virada de jogo na minha rotina de café da manhã. Recomendo muito a de frutas vermelhas! 🍓")
  ]

  const InitialVisible: nat := 2
  const PageSize: nat := 2

  /** `posts.slice(0, visible)`: the first min(visible, |posts|) posts in
      their order. */
  function Shown(posts: seq<Post>, visible: nat): (shown: seq<Post>)
    ensures |shown| == if visible < |posts| then visible else |posts|
    ensures shown == posts[..|shown|]
  {
    if visible < |posts| then posts[..visible] else posts
  }

  /** The "Carregar Mais" footer is rendered exactly while some post is
      hidden. */
  predicate LoadMoreShown(posts: seq<Post>, visible: nat) {
    visible < |posts|
  }

  lemma LoadMoreIffHidden(posts: seq<Post>, visible: nat)
    ensures LoadMoreShown(posts, visible) <==> |Shown(posts, visible)| < |posts|
    ensures !LoadMoreShown(posts, visible) ==> Shown(posts, visible) == posts
  {
  }

  /** The counter after `clicks` presses of "load more": the constructor
      starts the card at `VisibleAfter(0)` and each `HandleLoadMore` moves
      it from `VisibleAfter(k)` to `VisibleAfter(k + 1)`. */
  function VisibleAfter(clicks: nat): (visible: nat)
    ensures visible == InitialVisible + PageSize * clicks
  {
    if clicks == 0 then InitialVisible else VisibleAfter(clicks - 1) + PageSize
  }

  /** The button is still there after `clicks` presses exactly while
      2 + 2 * clicks < |posts|; each press while it is there shows up to
      two more posts and keeps the earlier ones in place. */
  lemma {:induction false} PressesReveal(posts: seq<Post>, clicks: nat)
    ensures LoadMoreShown(posts, VisibleAfter(clicks)) <==> 2 + 2 * clicks < |posts|
    ensures Shown(posts, VisibleAfter(clicks)) <= Shown(posts, VisibleAfter(clicks + 1))
    ensures LoadMoreShown(posts, VisibleAfter(clicks)) ==>
              |Shown(posts, VisibleAfter(clicks + 1))| > |Shown(posts, VisibleAfter(clicks))|
  {
    var a := Shown(posts, VisibleAfter(clicks));
    var b := Shown(posts, VisibleAfter(clicks + 1));
    assert a == posts[..|a|] && b == posts[..|b|] && |a| <= |b|;
    assert a == b[..|a|];
  }

  /** With the three sample posts, two show at first and one press
      shows all three and hides the button. */
  lemma SampleFeedOneClick()
    ensures |Shown(SamplePosts, VisibleAfter(0))| == 2 && LoadMoreShown(SamplePosts, VisibleAfter(0))
    ensures Shown(SamplePosts, VisibleAfter(1)) == SamplePosts && !LoadMoreShown(SamplePosts, VisibleAfter(1))
  {
    PressesReveal(SamplePosts, 0);
    PressesReveal(SamplePosts, 1);
  }

  /** The composer's placeholder greets the user by the card's display
      name. */
  function Placeholder(user: Option<AuthUser>): (text: string)
    ensures text == "O que você está pensando, " + UserProfile.DisplayName(user) + "?"
    ensures |text| > |"O que você está pensando, ?"|
  {
    "O que você está pensando, " + UserProfile.DisplayName(user) + "?"
  }

  /** The card's state: the signed-in user and the `visiblePosts` counter. */
  class CommunityFeed {
    const posts: seq<Post>
    var user: Option<AuthUser>
    var visiblePosts: nat

    constructor()
      ensures posts == SamplePosts && user == None && visiblePosts == InitialVisible
      ensures visiblePosts == VisibleAfter(0)
    {
      posts := SamplePosts;
      user := None;
      visiblePosts := InitialVisible;
    }

    /** The posts on screen. */
    function Displayed(): seq<Post>
      reads this
    {
      Shown(posts, visiblePosts)
    }

    /** The `onAuthStateChanged` listener. */
    method SetUser(current: Option<AuthUser>)
      modifies this
      ensures user == current && visiblePosts == old(visiblePosts)
    {
      user := current;
    }

    /** `handleLoadMore`: two more posts, never fewer on screen than before. */
    method HandleLoadMore()
      modifies this
      ensures visiblePosts == old(visiblePosts) + PageSize && user == old(user)
      ensures old(Displayed()) <= Displayed()
      ensures old(visiblePosts) < |posts| ==> |Displayed()| > |old(Displayed())|
      ensures forall k: nat :: old(visiblePosts) == VisibleAfter(k) ==> visiblePosts == VisibleAfter(k + 1)
    {
      ghost var before := Displayed();
      visiblePosts := visiblePosts + PageSize;
      assert before == posts[..|before|] && Displayed() == posts[..|Displayed()|];
    }
  }
}
