/** Text shown by the screens: either a string resource, named by its key, or a literal string. */
module UiText {
  datatype Text = Resource(name: string) | Plain(text: string)
}
