/** The blog index page: its fixed list of posts, the category filter, the
    featured list and the colour classes of the category and difficulty
    badges. */
module Blog {
  import opened Wrappers
  import Seqs

  /** One post card. Its title and excerpt are looked up by id (Title,
      Excerpt below) rather than stored in the record. */
  datatype Post = Post(
    id: nat,
    category: string,
    difficulty: string,
    readTime: string,
    image: string,
    slug: string,
    featured: bool)

  /** The posts, in the page's order. */
  function BlogPosts(): seq<Post> {
    [
      Post(1, "Tutorial", "Beginner", "5 min", "\U{1F680}", "getting-started", true),
      Post(2, "Tutorial", "Beginner", "8 min", "\U{1F916}", "first-wheeled-robot", true),
      Post(3, "Concept", "Intermediate", "12 min", "\U{1F4D0}", "robot-kinematics", false),
      Post(4, "Tutorial", "Beginner", "10 min", "\U{1F9E9}", "block-programming-intro", true),
      Post(5, "Concept", "Intermediate", "11 min", "\U{1F441}\U{FE0F}", "robot-sensors", false),
      Post(6, "Tutorial", "Intermediate", "14 min", "\U{1F9BE}", "robotic-arm-guide", false),
      Post(7, "Tutorial", "Intermediate", "13 min", "\U{1F681}", "drone-flight-basics", false),
      Post(8, "Guide", "Beginner", "7 min", "\U{1F50D}", "debugging-guide", false),
      Post(9, "Concept", "Advanced", "15 min", "\U{1F9E0}", "ai-robotics-intro", false),
      Post(10, "Concept", "Advanced", "16 min", "\U{2699}\U{FE0F}", "physics-simulation", false)
    ]
  }

  /** The title of the post with id `id` (the last post's for any other id). */
  function Title(id: nat): string {
    match id
    case 1 => "Getting Started with RobotStudio"
    case 2 => "Building Your First Wheeled Robot"
    case 3 => "Understanding Robot Kinematics"
    case 4 => "Introduction to Block Programming"
    case 5 => "How Robot Sensors Work"
    case 6 => "Programming a Robotic Arm"
    case 7 => "Drone Flight Control Basics"
    case 8 => "Debugging Your Robot Programs"
    case 9 => "Introduction to AI in Robotics"
    case _ => "Physics Simulation Deep Dive"
  }

  /** The excerpt of the post with id `id` (the last post's for any other id). */
  function Excerpt(id: nat): string {
    match id
    case 1 => "Your first step into the world of visual robot programming. Learn how to navigate the workspace and understand the basic interface."
    case 2 => "Step-by-step guide to configure and program a simple mobile robot. Make it move, turn, and respond to obstacles."
    case 3 => "Learn the fundamentals of forward and inverse kinematics. Essential knowledge for programming robotic arms and complex movements."
    case 4 => "Master the block-based visual programming language. Learn motion, control flow, and sensor blocks through practical examples."
    case 5 => "Explore different sensor types: distance sensors, gyroscopes, cameras, and how to use them in your programs."
    case 6 => "Configure and control a multi-joint robotic arm. Learn about degrees of freedom, joint control, and pick-and-place operations."
    case 7 => "Understand UAV dynamics and learn to program autonomous drone flights. Altitude control, navigation, and obstacle avoidance."
    case 8 => "Best practices for troubleshooting robot behavior. Use the console, sensors, and visualization to identify issues."
    case 9 => "Get started with machine learning for robots. Train models for object detection, path planning, and intelligent decision-making."
    case _ => "Understand forces, friction, gravity, and how they affect your robot simulations. Realistic physics for accurate testing."
  }

  /** The category buttons, after "All Articles". */
  const Categories: seq<string> := ["Tutorial", "Concept", "Guide"]

  /** The selected category; None is the initial `null`. */
  type Selection = Option<string>

  /** The test `selectedCategory ? ... : ...`: null and the empty string are
      falsy. */
  predicate IsSelected(sel: Selection) {
    sel.Some? && sel.value != ""
  }

  /** "All Articles" */
  function SelectAll(): Selection { None }

  /** A category button. */
  function SelectCategory(c: string): Selection { Some(c) }

  function InCategory(c: string): Post -> bool {
    (p: Post) => p.category == c
  }

  function IsFeatured(p: Post): bool { p.featured }

  /** `filteredPosts`, over a list of posts: every post while no category
      is selected, otherwise the posts of the selected category. */
  function FilteredPostsOf(posts: seq<Post>, sel: Selection): seq<Post> {
    if IsSelected(sel) then Seqs.Filter(posts, InCategory(sel.value)) else posts
  }

  /** `featuredPosts`, over a list of posts. */
  function FeaturedOf(posts: seq<Post>): seq<Post> {
    Seqs.Filter(posts, IsFeatured)
  }

  /** The page's `filteredPosts`. */
  function FilteredPosts(sel: Selection): seq<Post> {
    FilteredPostsOf(BlogPosts(), sel)
  }

  /** The page's `featuredPosts`. */
  function FeaturedPosts(): seq<Post> {
    FeaturedOf(BlogPosts())
  }

  /** The featured section is rendered only while no category is selected. */
  predicate ShowsFeatured(sel: Selection) {
    !IsSelected(sel)
  }

  function Ids(posts: seq<Post>): (r: seq<nat>)
    ensures |r| == |posts| && forall i :: 0 <= i < |posts| ==> r[i] == posts[i].id
  {
    seq(|posts|, i requires 0 <= i < |posts| => posts[i].id)
  }

  /** With no selection every post is listed, in order; with a category,
      exactly the posts of that category, each as often as it occurs and in
      their order. */
  lemma FilterBySelection(posts: seq<Post>, sel: Selection, front: seq<Post>, back: seq<Post>, q: Post)
    ensures !IsSelected(sel) ==> FilteredPostsOf(posts, sel) == posts
    ensures IsSelected(sel) ==>
      var r := FilteredPostsOf(posts, sel);
      && (forall i :: 0 <= i < |r| ==> r[i].category == sel.value && r[i] in posts)
      && (forall i :: 0 <= i < |posts| && posts[i].category == sel.value ==> posts[i] in r)
      && multiset(r)[q] == (if q.category == sel.value then multiset(posts)[q] else 0)
      && (posts == front + back ==> r == FilteredPostsOf(front, sel) + FilteredPostsOf(back, sel))
  {
    if IsSelected(sel) {
      Seqs.FilterCount(posts, InCategory(sel.value), q);
      Seqs.FilterAppend(front, back, InCategory(sel.value));
    }
  }

  /** The featured list holds exactly the featured posts, in their order:
      the list of a concatenation is the concatenation of the lists. */
  lemma FeaturedExactly(posts: seq<Post>, front: seq<Post>, back: seq<Post>, q: Post)
    ensures var r := FeaturedOf(posts);
      && (forall i :: 0 <= i < |r| ==> r[i].featured && r[i] in posts)
      && (forall i :: 0 <= i < |posts| && posts[i].featured ==> posts[i] in r)
      && multiset(r)[q] == (if q.featured then multiset(posts)[q] else 0)
      && (posts == front + back ==> r == FeaturedOf(front) + FeaturedOf(back))
  {
    Seqs.FilterCount(posts, IsFeatured, q);
    Seqs.FilterAppend(front, back, IsFeatured);
  }

  /** The ids of the posts of `posts` from index `k` on that pass `f`, in order. */
  function IdsFrom(posts: seq<Post>, k: nat, f: Post -> bool): seq<nat>
    decreases |posts| - k
  {
    if k >= |posts| then []
    else (if f(posts[k]) then [posts[k].id] else []) + IdsFrom(posts, k + 1, f)
  }

  lemma IdsAppend(a: seq<Post>, b: seq<Post>)
    ensures Ids(a + b) == Ids(a) + Ids(b)
  {
    assert forall i :: 0 <= i < |a| + |b| ==> Ids(a + b)[i] == (Ids(a) + Ids(b))[i];
  }

  /** The ids of a filtered list are the ids of the posts that pass. */
  lemma {:induction false} IdsFilter(posts: seq<Post>, k: nat, f: Post -> bool)
    requires k <= |posts|
    ensures Ids(Seqs.Filter(posts[k..], f)) == IdsFrom(posts, k, f)
    decreases |posts| - k
  {
    if k < |posts| {
      IdsFilter(posts, k + 1, f);
      var rest := posts[k..];
      var head := if f(posts[k]) then [posts[k]] else [];
      var tail := Seqs.Filter(posts[k + 1..], f);
      assert rest[0] == posts[k] && rest[1..] == posts[k + 1..];
      assert Seqs.Filter(rest, f) == head + tail;
      IdsAppend(head, tail);
      assert Ids(head) == if f(posts[k]) then [posts[k].id] else [];
    }
  }

  lemma ShippedFeaturedIds()
    ensures IdsFrom(BlogPosts(), 0, IsFeatured) == [1, 2, 4]
  {
  }

  lemma ShippedTutorialIds()
    ensures IdsFrom(BlogPosts(), 0, InCategory("Tutorial")) == [1, 2, 4, 6, 7]
  {
  }

  lemma ShippedConceptIds()
    ensures IdsFrom(BlogPosts(), 0, InCategory("Concept")) == [3, 5, 9, 10]
  {
  }

  lemma ShippedGuideIds()
    ensures IdsFrom(BlogPosts(), 0, InCategory("Guide")) == [8]
  {
  }

  /** For the shipped posts: the featured ones are posts 1, 2 and 4, and the
      three categories hold posts 1, 2, 4, 6, 7, then 3, 5, 9, 10, then 8. */
  lemma ShippedLists()
    ensures Ids(FeaturedPosts()) == [1, 2, 4]
    ensures Ids(FilteredPosts(SelectCategory("Tutorial"))) == [1, 2, 4, 6, 7]
    ensures Ids(FilteredPosts(SelectCategory("Concept"))) == [3, 5, 9, 10]
    ensures Ids(FilteredPosts(SelectCategory("Guide"))) == [8]
  {
    ShippedFeatured();
    ShippedTutorial();
    ShippedConcept();
    ShippedGuide();
  }

  lemma ShippedFeatured()
    ensures Ids(FeaturedPosts()) == [1, 2, 4]
  {
    ShippedFeaturedIds();
    assert BlogPosts()[0..] == BlogPosts();
    IdsFilter(BlogPosts(), 0, IsFeatured);
  }

  lemma ShippedTutorial()
    ensures Ids(FilteredPosts(SelectCategory("Tutorial"))) == [1, 2, 4, 6, 7]
  {
    ShippedTutorialIds();
    assert BlogPosts()[0..] == BlogPosts();
    IdsFilter(BlogPosts(), 0, InCategory("Tutorial"));
  }

  lemma ShippedConcept()
    ensures Ids(FilteredPosts(SelectCategory("Concept"))) == [3, 5, 9, 10]
  {
    ShippedConceptIds();
    assert BlogPosts()[0..] == BlogPosts();
    IdsFilter(BlogPosts(), 0, InCategory("Concept"));
  }

  lemma ShippedGuide()
    ensures Ids(FilteredPosts(SelectCategory("Guide"))) == [8]
  {
    ShippedGuideIds();
    assert BlogPosts()[0..] == BlogPosts();
    IdsFilter(BlogPosts(), 0, InCategory("Guide"));
  }

  /** "All Articles" clears the selection and brings back the featured
      section with every post listed; a category button hides the featured
      section and lists only its posts. */
  lemma Buttons(posts: seq<Post>, k: nat)
    requires k < |Categories|
    ensures ShowsFeatured(SelectAll()) && FilteredPostsOf(posts, SelectAll()) == posts
    ensures !ShowsFeatured(SelectCategory(Categories[k]))
    ensures FilteredPostsOf(posts, SelectCategory(Categories[k])) == Seqs.Filter(posts, InCategory(Categories[k]))
  {
  }

  const DefaultDifficultyColor: string := "bg-slate-500/20 text-slate-700 dark:text-slate-400"
  const DefaultCategoryColor: string := "text-slate-600 dark:text-slate-400"

  /** `getDifficultyColor` */
  function DifficultyColor(difficulty: string): string {
    if difficulty == "Beginner" then "bg-green-500/20 text-green-700 dark:text-green-400"
    else if difficulty == "Intermediate" then "bg-yellow-500/20 text-yellow-700 dark:text-yellow-400"
    else if difficulty == "Advanced" then "bg-red-500/20 text-red-700 dark:text-red-400"
    else DefaultDifficultyColor
  }

  /** `getCategoryColor` */
  function CategoryColor(category: string): string {
    if category == "Tutorial" then "text-cyan-600 dark:text-cyan-400 bg-cyan-500/10"
    else if category == "Concept" then "text-blue-600 dark:text-blue-400 bg-blue-500/10"
    else if category == "Guide" then "text-purple-600 dark:text-purple-400 bg-purple-500/10"
    else DefaultCategoryColor
  }

  /** Each difficulty level has a badge class of its own, none of them the
      fallback; any other string gets the fallback. */
  lemma DifficultyColors(x: string)
    ensures DifficultyColor("Beginner") != DifficultyColor("Intermediate")
    ensures DifficultyColor("Beginner") != DifficultyColor("Advanced")
    ensures DifficultyColor("Intermediate") != DifficultyColor("Advanced")
    ensures DifficultyColor("Beginner") != DefaultDifficultyColor
    ensures DifficultyColor("Intermediate") != DefaultDifficultyColor
    ensures DifficultyColor("Advanced") != DefaultDifficultyColor
    ensures x != "Beginner" && x != "Intermediate" && x != "Advanced" ==> DifficultyColor(x) == DefaultDifficultyColor
  {
  }

  /** Each category button's category has a label class of its own, none of
      them the fallback; any other string gets the fallback. */
  lemma CategoryColors(x: string)
    ensures CategoryColor("Tutorial") != CategoryColor("Concept")
    ensures CategoryColor("Tutorial") != CategoryColor("Guide")
    ensures CategoryColor("Concept") != CategoryColor("Guide")
    ensures CategoryColor("Tutorial") != DefaultCategoryColor
    ensures CategoryColor("Concept") != DefaultCategoryColor
    ensures CategoryColor("Guide") != DefaultCategoryColor
    ensures x != "Tutorial" && x != "Concept" && x != "Guide" ==> CategoryColor(x) == DefaultCategoryColor
  {
  }
}
