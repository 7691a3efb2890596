/**
  * The category form: a name and a slug derived from it by the same rule as a
  * post's title, an editable slug, and a submit that clears the form only once
  * the category has been created.
  */
module CategoryForm {
  import opened Wrappers
  import opened Text
  import opened PostsApi

  const EmptyCategoryForm := CategoryFormData("", "")

  class CategoryFormState {
    var formData: CategoryFormData

    constructor ()
      ensures formData == EmptyCategoryForm
    {
      formData := EmptyCategoryForm;
    }

    /** `handleNameChange`: the name and the slug derived from it. */
    method HandleNameChange(name: string)
      modifies this
      ensures formData == CategoryFormData(name, FormSlug(name))
      ensures IsSlug(formData.slug)
    {
      formData := formData.(name := name, slug := FormSlug(name));
    }

    /** Editing the slug by hand changes only the slug. */
    method SetSlug(slug: string)
      modifies this
      ensures formData == old(formData).(slug := slug)
    {
      formData := formData.(slug := slug);
    }

    /**
      * `handleSubmit`: hands the fields over; the form is cleared when that
      * succeeds and kept, with the failure passed on, when it does not.
      */
    method HandleSubmit(outcome: Result<()>) returns (submitted: CategoryFormData, thrown: Option<Error>)
      modifies this
      ensures submitted == old(formData)
      ensures outcome.Ok? ==> thrown == None && formData == EmptyCategoryForm
      ensures outcome.Err? ==> thrown == Some(outcome.error) && formData == old(formData)
    {
      submitted := formData;
      if outcome.Err? {
        return submitted, Some(outcome.error);
      }
      formData := EmptyCategoryForm;
      thrown := None;
    }
  }
}
