/** The Avatar component: a capitalised initial for a named user, otherwise a generic icon. */
module Avatar {
  import opened Wrappers
  import opened JsText
  import opened Posts

  datatype Face = Initial(letter: char) | Icon

  /** `name ? name.charAt(0).toUpperCase() : <UserIcon />`. */
  function AvatarFace(name: Option<string>): (f: Face)
    ensures f.Icon? <==> !Truthy(name)
    ensures f.Initial? ==> f.letter == ToUpper(name.value[0])
  {
    if Truthy(name) then Initial(ToUpper(name.value[0])) else Icon
  }

  /** A name accepted by the join form shows a visible initial, never the icon and never a blank. */
  lemma JoinedNameShowsInitial(nameInput: string)
    requires !IsBlank(nameInput)
    ensures AvatarFace(Some(Trim(nameInput))).Initial?
    ensures !IsWhite(AvatarFace(Some(Trim(nameInput))).letter)
  {
    BlankIffTrimEmpty(nameInput);
    ToUpperKeepsNonWhite(Trim(nameInput)[0]);
  }
}
