/** The blog editor page: it loads a post into the form, edits it field by
    field, and saves or deletes the stored post whose id is in the route. */
module BlogEditor {
  import opened Wrappers
  import opened BlogForm
  import opened BlogStore

  datatype SaveOutcome = Rejected(reason: SaveError) | Saved(navigateToBlog: bool)

  class BlogEditPage {
    var data: BlogData
    var isPreview: bool
    var loading: bool
    /** `parseInt(id)` of the route parameter; `None` is `NaN`. */
    const routeId: Option<int>
    const store: PostStore

    constructor(routeId: Option<int>, store: PostStore)
      ensures this.routeId == routeId && this.store == store
      ensures data == InitialBlog && !isPreview && loading
    {
      this.routeId := routeId;
      this.store := store;
      data := InitialBlog;
      isPreview := false;
      loading := true;
    }

    /** The load effect: the fetched post replaces the form and the spinner goes. */
    method Load(loaded: BlogData)
      modifies this
      ensures data == loaded && !loading && isPreview == old(isPreview)
    {
      data := loaded;
      loading := false;
    }

    /** `handleInputChange(field, value)`. */
    method InputChange(f: Field, v: string)
      modifies this
      ensures data == BlogForm.InputChange(old(data), f, v)
      ensures isPreview == old(isPreview) && loading == old(loading)
    {
      data := Set(data, f, v);
      if f == TitleField {
        data := Set(data, SlugField, Slugs.TitleSlug(v));
      }
    }

    /** `handleFileChange`: a chosen file's object URL becomes the featured image. */
    method ChooseImage(url: Option<string>)
      modifies this
      ensures data == if url.Some? then old(data).(featuredImage := url.value) else old(data)
      ensures isPreview == old(isPreview) && loading == old(loading)
    {
      if url.Some? {
        data := data.(featuredImage := url.value);
      }
    }

    method TogglePreview()
      modifies this
      ensures isPreview == !old(isPreview) && data == old(data) && loading == old(loading)
    {
      isPreview := !isPreview;
    }

    /** `handleSave(status)`: on a blank title or blank content nothing changes;
        otherwise the matching stored posts are merged with the form, the form
        takes the status, and only publishing navigates away. */
    method Save(status: Status, now: string) returns (outcome: SaveOutcome)
      modifies this, store
      ensures CheckSave(old(data)).Some? ==>
        outcome == Rejected(CheckSave(old(data)).value) &&
        data == old(data) && store.posts == old(store.posts)
      ensures CheckSave(old(data)).None? ==>
        outcome == Saved(status == Published) &&
        data == old(data).(status := StatusText(status)) &&
        store.posts == UpdateById(old(store.posts), routeId, old(data), status, now)
      ensures isPreview == old(isPreview) && loading == old(loading)
    {
      var check := CheckSave(data);
      if check.Some? {
        return Rejected(check.value);
      }
      store.Update(routeId, data, status, now);
      data := data.(status := StatusText(status));
      outcome := Saved(status == Published);
    }

    /** `handleDelete`: only a confirmed delete touches the store; it removes
        every post with the route id and then navigates away. */
    method Delete(confirmed: bool) returns (navigateToBlog: bool)
      modifies store
      ensures navigateToBlog == confirmed
      ensures store.posts == if confirmed then RemoveById(old(store.posts), routeId) else old(store.posts)
    {
      if confirmed {
        store.Delete(routeId);
      }
      navigateToBlog := confirmed;
    }
  }
}
