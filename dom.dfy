/** The part of the browser the managers read and write: the elements of the
    page by id, the class of `document.body`, the `theme-color` meta tag and
    `localStorage`. */
module Dom {
  import opened Wrappers

  /** An element's `textContent` and its attributes (`href`, `target`, `rel`, ...). */
  datatype Element = Element(text: string, attrs: map<string, string>)

  class Browser {
    /** `document.getElementById(id)` is non-null exactly when `id` is a key. */
    var elements: map<string, Element>
    /** `document.body.className` */
    var bodyClass: string
    /** the `content` of `<meta name="theme-color">`, `None` when the page has no such tag */
    var metaThemeColor: Option<string>
    /** `localStorage`, key to stored string */
    var localStorage: map<string, string>

    constructor (elements: map<string, Element>, bodyClass: string,
                 metaThemeColor: Option<string>, localStorage: map<string, string>)
      ensures this.elements == elements && this.bodyClass == bodyClass
      ensures this.metaThemeColor == metaThemeColor && this.localStorage == localStorage
    {
      this.elements := elements;
      this.bodyClass := bodyClass;
      this.metaThemeColor := metaThemeColor;
      this.localStorage := localStorage;
    }
  }

  /** `el.textContent = text` for the element with this id, when the page has one. */
  function SetText(elements: map<string, Element>, id: string, text: string): (r: map<string, Element>)
    ensures r.Keys == elements.Keys
    ensures id in elements ==> r[id] == elements[id].(text := text)
    ensures forall other :: other in elements && other != id ==> r[other] == elements[other]
  {
    if id in elements then elements[id := elements[id].(text := text)] else elements
  }
}
