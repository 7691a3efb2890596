/**
  * The post form: its fields, the slug derived from the title, the pre-fill
  * from the post being edited (or the reset for a new one), the per-field
  * setters and the submit that hands the fields over.
  */
module PostForm {
  import opened Wrappers
  import opened Text
  import opened PostsApi

  const EmptyPostForm := PostFormData("", "", "", "", "", None)

  /**
    * The category id the form edits: the embedded category's numeric id as text,
    * else its `documentId`, else "".
    */
  function CategoryIdOf(category: Option<PostCategory>): (id: string)
    ensures category.None? ==> id == ""
    ensures category.Some? && category.value.id.Some? ==> id == IntToString(category.value.id.value)
    ensures category.Some? && category.value.id.None? ==> id == category.value.documentId
  {
    match category
    case None => ""
    case Some(c) => if c.id.Some? then IntToString(c.id.value) else c.documentId
  }

  /** A category chosen by its numeric id reads back as that number, which is what the update sends. */
  lemma CategoryIdReadsBack(category: PostCategory)
    requires category.id.Some? && category.id.value >= 0
    ensures var id := CategoryIdOf(Some(category));
      (forall i :: 0 <= i < |id| ==> IsDigit(id[i])) && ParseNat(id) == category.id.value
  {
    NatToStringRoundTrip(category.id.value);
  }

  /** The fields the form starts from: the edited post's, optional texts as "", no image; or all empty. */
  function Prefilled(post: Option<Post>): (form: PostFormData)
    ensures post.None? ==> form == EmptyPostForm
    ensures post.Some? ==>
              && form.title == post.value.title
              && form.slug == post.value.slug
              && form.description == post.value.description.GetOr("")
              && form.content == post.value.content.GetOr("")
              && form.categoryId == CategoryIdOf(post.value.category)
              && form.image == None
  {
    match post
    case None => EmptyPostForm
    case Some(p) => PostFormData(p.title, p.description.GetOr(""), p.content.GetOr(""), p.slug, CategoryIdOf(p.category), None)
  }

  class PostFormState {
    var formData: PostFormData

    constructor ()
      ensures formData == EmptyPostForm
    {
      formData := EmptyPostForm;
    }

    /** The effect that runs whenever the edited post changes. */
    method Prefill(post: Option<Post>)
      modifies this
      ensures formData == Prefilled(post)
    {
      formData := Prefilled(post);
    }

    /** `handleTitleChange`: the title and the slug derived from it; nothing else. */
    method HandleTitleChange(title: string)
      modifies this
      ensures formData == old(formData).(title := title, slug := FormSlug(title))
      ensures IsSlug(formData.slug)
    {
      formData := formData.(title := title, slug := FormSlug(title));
    }

    method SetSlug(slug: string)
      modifies this
      ensures formData == old(formData).(slug := slug)
    {
      formData := formData.(slug := slug);
    }

    method SetDescription(description: string)
      modifies this
      ensures formData == old(formData).(description := description)
    {
      formData := formData.(description := description);
    }

    method SetContent(content: string)
      modifies this
      ensures formData == old(formData).(content := content)
    {
      formData := formData.(content := content);
    }

    method SetCategoryId(categoryId: string)
      modifies this
      ensures formData == old(formData).(categoryId := categoryId)
    {
      formData := formData.(categoryId := categoryId);
    }

    /** `handleSubmit`: hands the current fields over unchanged and passes on any failure; the form is kept. */
    method HandleSubmit(outcome: Result<()>) returns (submitted: PostFormData, thrown: Option<Error>)
      ensures submitted == formData
      ensures thrown == if outcome.Err? then Some(outcome.error) else None
    {
      submitted := formData;
      thrown := if outcome.Err? then Some(outcome.error) else None;
    }
  }

  /** Typing a title fills the slug with a slug that deriving again would not change. */
  method TitleGivesStableSlug(form: PostFormState, title: string)
    modifies form
    ensures form.formData.title == title
    ensures FormSlug(form.formData.slug) == form.formData.slug
  {
    form.HandleTitleChange(title);
    FormSlugIdempotent(title);
  }
}
