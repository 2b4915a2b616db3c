/** The new-post form: seven required text fields, the cover image picked from
    a file input, and the submit handler that needs both a valid form and an
    image. */
module CreatePostForm {
  import opened Common
  import opened Forms
  import opened PostService

  datatype PostForm = PostForm(
    fraseclave: string,
    title: string,
    textoinfo: string,
    textoprograma1: string,
    textoprograma2: string,
    textodresscode: string,
    textoartistas: string,
    textodjs: string,
    textopases: string,
    created_at: string,
    tituloseo: string,
    slug: string,
    metadescripcion: string,
    altportada: string)

  const EmptyForm := PostForm("", "", "", "", "", "", "", "", "", "", "", "", "", "")
  const EmptyPost := Post(0, "", "", "", "", "", "", "", "", "", "", "", "", "", "", "")
  const MissingImageNotice := "Añade una imagen de portada"

  /** The form is valid when the seven required fields are filled; the
      programme, dress-code, artists, DJs, passes and date fields may be empty. */
  function FormValid(f: PostForm): (b: bool)
    ensures b <==> f.fraseclave != "" && f.title != "" && f.textoinfo != "" && f.tituloseo != ""
                   && f.slug != "" && f.metadescripcion != "" && f.altportada != ""
  {
    && !RequiredError(f.fraseclave) && !RequiredError(f.title) && !RequiredError(f.textoinfo)
    && !RequiredError(f.tituloseo) && !RequiredError(f.slug)
    && !RequiredError(f.metadescripcion) && !RequiredError(f.altportada)
  }

  /** Every field of the new-post page that the model keeps. */
  datatype PostFormState = PostFormState(
    isLoading: bool,
    adminLogueado: bool,
    isFile: bool,
    imagenportada: Option<ImageFile>,
    post: Post,
    form: PostForm)

  class CreatePostFormComponent {
    var isLoading: bool
    var adminLogueado: bool
    var isFile: bool
    var imagenportada: Option<ImageFile>
    var post: Post
    var form: PostForm
    const postService: PostsService

    function State(): PostFormState
      reads this
    {
      PostFormState(isLoading, adminLogueado, isFile, imagenportada, post, form)
    }

    /** An image is held whenever the form says it has one, and the post
        channel holds a list. */
    predicate Valid()
      reads this, postService
    {
      (isFile ==> imagenportada.Some?) && postService.Valid()
    }

    constructor (postService: PostsService)
      requires postService.Valid()
      ensures Valid() && this.postService == postService
      ensures State() == PostFormState(false, false, false, None, EmptyPost, EmptyForm)
      ensures !FormValid(form)
    {
      this.postService := postService;
      isLoading, adminLogueado, isFile := false, false, false;
      imagenportada := None;
      post := EmptyPost;
      form := EmptyForm;
    }

    /** The `adminLogueado$` subscription of `ngOnInit`. */
    method OnAdminLogueado(state: bool)
      modifies this
      ensures State() == old(State()).(adminLogueado := state)
    {
      adminLogueado := state;
    }

    /** `getFile(event)`: a chosen file becomes the cover image; cancelling
        the picker keeps the previous one. */
    method GetFile(file: Option<ImageFile>)
      requires Valid()
      modifies this
      ensures Valid()
      ensures file.Some? ==> State() == old(State()).(imagenportada := file, isFile := true)
      ensures file.None? ==> State() == old(State())
    {
      if file.Some? {
        imagenportada := file;
        isFile := true;
      }
    }

    /** `onSubmit()`; `json` stands for `JSON.stringify`. A valid form with an
        image is sent with that image, and either answer stops the spinner;
        without an image the user is told to add one and nothing is sent. */
    method OnSubmit(json: PostForm -> string, outcome: Outcome<Post>)
      returns (sent: Option<PostForm>, parts: seq<FormPart>, notice: Option<string>)
      requires Valid()
      modifies this, postService
      ensures Valid()
      ensures !FormValid(form) ==>
                && sent.None? && notice.None? && State() == old(State())
                && postService.postSubject == old(postService.postSubject)
      ensures FormValid(form) && !isFile ==>
                && sent.None? && notice == Some(MissingImageNotice) && State() == old(State())
                && postService.postSubject == old(postService.postSubject)
      ensures FormValid(form) && isFile ==>
                && sent == Some(form) && notice.None?
                && State() == old(State()).(isLoading := false)
                && parts == CreateFormData(imagenportada.value, json(form))
      ensures FormValid(form) && isFile && outcome.Success? ==>
                postService.postSubject ==
                  old(postService.postSubject)["posts" := Posts(Prepended(old(postService.PostList()), outcome.value))]
      ensures FormValid(form) && isFile && outcome.Failure? ==>
                postService.postSubject == old(postService.postSubject)
    {
      sent, parts, notice := None, [], None;
      if FormValid(form) {
        var payload := form;
        if isFile {
          isLoading := true;
          var result;
          parts, result := postService.CreatePost(imagenportada.value, json(payload), outcome);
          sent := Some(payload);
          isLoading := false;
        } else {
          notice := Some(MissingImageNotice);
        }
      }
    }
  }
}
