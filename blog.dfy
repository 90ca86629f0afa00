/** The blog section: the first post is featured on its own, the rest fill a
    grid, and every post's category badge takes its colour from a table. */
module Blog {

  datatype Option<T> = None | Some(value: T)

  datatype BlogPost = BlogPost(
    id: int,
    title: string,
    excerpt: string,
    image: string,
    date: string,
    readTime: string,
    category: string,
    tags: seq<string>)

  /** The posts, newest first. */
  const BlogPosts: seq<BlogPost> := [
    BlogPost(1, "The Future of Web Development: Trends to Watch in 2024",
      "Explore the latest trends shaping the web development landscape, from AI integration to progressive web apps.",
      "https://images.unsplash.com/photo-1516321318423-f06f85e504b3?ixlib=rb-4.0.3&auto=format&fit=crop&w=600&q=80",
      "2024-01-15", "5 min read", "Web Development", ["React", "AI", "Trends"]),
    BlogPost(2, "Creating Stunning UI Animations with Framer Motion",
      "Learn how to bring your React applications to life with smooth, engaging animations using Framer Motion.",
      "https://images.unsplash.com/photo-1558655146-9f40138edfeb?ixlib=rb-4.0.3&auto=format&fit=crop&w=600&q=80",
      "2024-01-10", "8 min read", "Tutorial", ["Animation", "React", "Framer Motion"]),
    BlogPost(3, "Mobile-First Design: Why It Matters More Than Ever",
      "Understanding the importance of mobile-first approach in modern web design and how to implement it effectively.",
      "https://images.unsplash.com/photo-1512941937669-90a1b58e7e9c?ixlib=rb-4.0.3&auto=format&fit=crop&w=600&q=80",
      "2024-01-05", "6 min read", "Design", ["Mobile", "UX", "Responsive"]),
    BlogPost(4, "Building Scalable React Applications: Best Practices",
      "Essential patterns and practices for building React applications that can grow with your business needs.",
      "https://images.unsplash.com/photo-1633356122544-f134324a6cee?ixlib=rb-4.0.3&auto=format&fit=crop&w=600&q=80",
      "2023-12-28", "10 min read", "Development", ["React", "Architecture", "Best Practices"]),
    BlogPost(5, "The Art of Minimalist Web Design",
      "How to create clean, effective designs that focus on user experience and content clarity.",
      "https://images.unsplash.com/photo-1545670723-196ed0954986?ixlib=rb-4.0.3&auto=format&fit=crop&w=600&q=80",
      "2023-12-20", "4 min read", "Design", ["Minimalism", "UI", "User Experience"]),
    BlogPost(6, "Performance Optimization Techniques for Modern Web Apps",
      "Practical strategies to improve your website speed and user experience through various optimization techniques.",
      "https://images.unsplash.com/photo-1460925895917-afdab827c52f?ixlib=rb-4.0.3&auto=format&fit=crop&w=600&q=80",
      "2023-12-15", "12 min read", "Performance", ["Optimization", "Speed", "Performance"])
  ]

  /** The badge classes of the five known categories. */
  const CategoryColors: map<string, string> := map[
    "Web Development" := "bg-blue-100 text-blue-800",
    "Tutorial" := "bg-green-100 text-green-800",
    "Design" := "bg-purple-100 text-purple-800",
    "Development" := "bg-red-100 text-red-800",
    "Performance" := "bg-yellow-100 text-yellow-800"
  ]

  /** The badge classes of any other category. */
  const DefaultColor: string := "bg-gray-100 text-gray-800"

  /** The badge classes for a category: the table's entry, or the grey
      default for a category the table does not know. The lookup is joined
      to the default with `||`, which also falls back on an empty entry; no
      entry is empty, so the default marks exactly the unknown categories. */
  function GetCategoryColor(category: string): (color: string)
    ensures category in CategoryColors ==> color == CategoryColors[category]
    ensures color == DefaultColor <==> category !in CategoryColors
    ensures color in CategoryColors.Values || color == DefaultColor
  {
    if category in CategoryColors && CategoryColors[category] != "" then
      CategoryColors[category]
    else DefaultColor
  }

  /** The five known categories get five different colours. */
  lemma KnownColorsDistinct()
    ensures forall c1, c2 :: c1 in CategoryColors && c2 in CategoryColors && c1 != c2 ==>
      GetCategoryColor(c1) != GetCategoryColor(c2)
  {
  }

  /** No post in the shipped list falls back to the default colour. */
  lemma ShippedPostsHaveKnownColors()
    ensures forall p :: p in BlogPosts ==> p.category in CategoryColors
    ensures forall p :: p in BlogPosts ==> GetCategoryColor(p.category) != DefaultColor
  {
  }

  /** JavaScript's `slice(start)`: the elements from `start` on, or nothing
      when `start` is past the end. */
  function Slice<T>(s: seq<T>, start: nat): (r: seq<T>)
    ensures |r| == if start <= |s| then |s| - start else 0
    ensures forall k :: 0 <= k < |r| ==> r[k] == s[start + k]
  {
    if start <= |s| then s[start..] else []
  }

  /** The featured post, `posts[0]`; there is none for an empty list. */
  function Featured(posts: seq<BlogPost>): (r: Option<BlogPost>)
    ensures r.None? <==> posts == []
    ensures r.Some? ==> r.value == posts[0]
  {
    if posts == [] then None else Some(posts[0])
  }

  /** The grid, `posts.slice(1)`: every post but the featured one. */
  function Grid(posts: seq<BlogPost>): (r: seq<BlogPost>)
    ensures |r| == if posts == [] then 0 else |posts| - 1
  {
    Slice(posts, 1)
  }

  /** The featured post followed by the grid is the whole list, each post
      drawn exactly once, in order. */
  lemma FeaturedThenGrid(posts: seq<BlogPost>)
    ensures match Featured(posts)
      case None => Grid(posts) == [] && posts == []
      case Some(f) => [f] + Grid(posts) == posts
  {
  }

  /** On the shipped list, post 1 is featured and the grid has five posts. */
  lemma ShippedSplit()
    ensures Featured(BlogPosts) == Some(BlogPosts[0]) && BlogPosts[0].id == 1
    ensures |Grid(BlogPosts)| == 5
  {
  }
}
