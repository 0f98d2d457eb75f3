/** The content generator, which answers every request with one sample package. */
module AiEngine {
  import opened Wrappers

  /** The task record handed to the generator: an email's fields by name. */
  type EmailData = map<string, string>

  datatype BlogPost = BlogPost(title: string, content: string)

  /** The long-form and the short-form content generated for one task. */
  datatype ContentPackage = ContentPackage(blogPost: BlogPost, socialPost: string)

  const SampleTitle := "Why You Should Switch to Sustainable Stationery Today"
  const SampleContent :=
    "\n"
    + "                <h1>The Future of Note-Taking is Green</h1>\n"
    + "                <p>In today's world, every choice matters. Our new <b>Recycled Paper Notebook</b> \n"
    + "                is not just a tool for writing, but a statement for the planet...</p>\n"
    + "                <p>It costs only $12 and saves trees!</p>\n"
    + "                "
  const SampleSocialPost :=
    "Big ideas start on green pages! \U{1F33F} Check out our new Recycled Notebook. #Sustainability #EcoFriendly #Stationery"

  /**
   * `generate_content_package`: fails exactly when the input has no `subject`
   * (the lookup raises a KeyError); otherwise the package has a non-empty
   * title, content and social post.
   */
  function GenerateContentPackage(emailData: EmailData): (r: Result<ContentPackage>)
    ensures r.Success? <==> "subject" in emailData
    ensures r.Failure? ==> r.error == "'subject'"
    ensures r.Success? ==> r.value.blogPost.title != "" && r.value.blogPost.content != ""
    ensures r.Success? ==> r.value.socialPost != ""
  {
    if "subject" !in emailData then Failure("'subject'")
    else Success(ContentPackage(BlogPost(SampleTitle, SampleContent), SampleSocialPost))
  }

  /** Every input that has a subject gets the same package. */
  lemma PackageIgnoresInput(a: EmailData, b: EmailData)
    requires "subject" in a && "subject" in b
    ensures GenerateContentPackage(a) == GenerateContentPackage(b)
  {
  }
}
