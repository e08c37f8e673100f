/** The sitemap: the three fixed pages followed by one entry per post. */
module Sitemap {
  import Notion

  const SiteUrl := "https://codingtheroad.com"
  const PostsPrefix := "https://codingtheroad.com/posts/"

  /** One sitemap entry; `lastModified` is the build time (`now`) for the
      fixed pages and the post's `last_edited_time` for posts. */
  datatype Entry = Entry(url: string, lastModified: string)

  function PostEntry(post: Notion.BlogPost): Entry {
    Entry(PostsPrefix + post.id, post.lastEditedTime)
  }

  /** `sitemap()` over the posts `getPosts()` returned, with `now` for
      `new Date()`. */
  function Sitemap(posts: seq<Notion.BlogPost>, now: string): (r: seq<Entry>)
    ensures |r| == 3 + |posts|
    ensures r[..3] == [Entry(SiteUrl, now), Entry(SiteUrl + "/about", now), Entry(SiteUrl + "/articles", now)]
    ensures forall i :: 0 <= i < |posts| ==>
      r[3 + i].url == PostsPrefix + posts[i].id && r[3 + i].lastModified == posts[i].lastEditedTime
  {
    [Entry(SiteUrl, now), Entry(SiteUrl + "/about", now), Entry(SiteUrl + "/articles", now)]
      + seq(|posts|, i requires 0 <= i < |posts| => PostEntry(posts[i]))
  }

  /** A post's id can be read back from its sitemap URL. */
  function PostIdOf(url: string): (id: string)
    requires |url| >= |PostsPrefix| && url[..|PostsPrefix|] == PostsPrefix
    ensures url == PostsPrefix + id
  {
    url[|PostsPrefix|..]
  }

  /** Every post entry is a post URL whose id is the post's. */
  lemma PostUrlsRecoverIds(posts: seq<Notion.BlogPost>, now: string)
    ensures forall i :: 0 <= i < |posts| ==>
      var url := Sitemap(posts, now)[3 + i].url;
      |url| >= |PostsPrefix| && url[..|PostsPrefix|] == PostsPrefix && PostIdOf(url) == posts[i].id
  {
    var r := Sitemap(posts, now);
    forall i | 0 <= i < |posts|
      ensures |r[3 + i].url| >= |PostsPrefix| && r[3 + i].url[..|PostsPrefix|] == PostsPrefix
      ensures PostIdOf(r[3 + i].url) == posts[i].id
    {
      var url := r[3 + i].url;
      assert url == PostsPrefix + posts[i].id;
      assert url[..|PostsPrefix|] == PostsPrefix;
      assert url[|PostsPrefix|..] == posts[i].id;
    }
  }

  /** Posts with different ids get different URLs. */
  lemma DistinctIdsDistinctUrls(posts: seq<Notion.BlogPost>, now: string, i: nat, j: nat)
    requires i < |posts| && j < |posts| && posts[i].id != posts[j].id
    ensures Sitemap(posts, now)[3 + i].url != Sitemap(posts, now)[3 + j].url
  {
    PostUrlsRecoverIds(posts, now);
    var r := Sitemap(posts, now);
    assert PostIdOf(r[3 + i].url) == posts[i].id;
    assert PostIdOf(r[3 + j].url) == posts[j].id;
  }

  /** No post URL is one of the fixed pages' URLs. */
  lemma PostUrlsAreNotFixedPages(posts: seq<Notion.BlogPost>, now: string, k: nat)
    requires 3 <= k < 3 + |posts|
    ensures Sitemap(posts, now)[k].url !in {SiteUrl, SiteUrl + "/about", SiteUrl + "/articles"}
  {
    assert Sitemap(posts, now)[k].url == PostsPrefix + posts[k - 3].id;
    PostUrlIsNotFixed(posts[k - 3].id);
  }

  lemma PostUrlIsNotFixed(id: string)
    ensures PostsPrefix + id !in {SiteUrl, SiteUrl + "/about", SiteUrl + "/articles"}
  {
    var url := PostsPrefix + id;
    assert url[..|PostsPrefix|] == PostsPrefix;
    assert |SiteUrl| < |PostsPrefix| && |SiteUrl + "/about"| < |PostsPrefix|;
    var articles := SiteUrl + "/articles";
    assert articles[|SiteUrl| + 1] == 'a' && url[|SiteUrl| + 1] == 'p';
  }
}
