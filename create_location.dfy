/**
 * The state of the create-location page: one object holding the five state
 * cells, with one method per event handler. Each method stands for a setter
 * call that replaces a cell; `Submit` reads the cells and appends the parts
 * of the request body one after the other.
 */
module CreateLocation {
  import opened Wrappers
  import Selection
  import Contact
  import Payload

  /** A catalog entry, as the items endpoint returns it. */
  datatype Item = Item(id: int, title: string, imageUrl: string)

  class FormState {
    var items: seq<Item>
    var position: Payload.LatLng
    var formData: Contact.ContactData
    var selectedItems: seq<int>
    var selectedFile: Option<Payload.File>

    /** The selection never holds an id twice. */
    ghost predicate Valid()
      reads this
    {
      Selection.NoDuplicates(selectedItems)
    }

    /** The page as it is first rendered. */
    constructor ()
      ensures Valid()
      ensures items == []
      ensures position == Payload.LatLng(0.0, 0.0)
      ensures formData == Contact.BLANK
      ensures selectedItems == []
      ensures selectedFile == None
    {
      items := [];
      position := Payload.LatLng(0.0, 0.0);
      formData := Contact.BLANK;
      selectedItems := [];
      selectedFile := None;
    }

    /** The catalog response replaces the item list. */
    method LoadCatalog(fetched: seq<Item>)
      requires Valid()
      modifies this`items
      ensures Valid()
      ensures items == fetched
    {
      items := fetched;
    }

    /** `handleMapClick`: the clicked coordinate replaces the position, whatever it was. */
    method MapClick(lat: real, lng: real)
      requires Valid()
      modifies this`position
      ensures Valid()
      ensures position == Payload.LatLng(lat, lng)
    {
      position := Payload.LatLng(lat, lng);
    }

    /** `handleInputChange` for one of the five inputs: that field takes the value, the others stay. */
    method SetField(f: Contact.Field, v: string)
      requires Valid()
      modifies this`formData
      ensures Valid()
      ensures Contact.Get(formData, f) == v
      ensures forall g :: g != f ==> Contact.Get(formData, g) == Contact.Get(old(formData), g)
      ensures formData == Contact.Update(old(formData), f, v)
    {
      formData := Contact.Update(formData, f, v);
    }

    /**
     * `handleSelectItem`: an id already selected is filtered out, keeping the
     * others in order; any other id is appended at the end.
     */
    method ToggleItem(id: int)
      requires Valid()
      modifies this`selectedItems
      ensures Valid()
      ensures selectedItems == Selection.Toggle(old(selectedItems), id)
      ensures id in old(selectedItems) ==>
        var i := Selection.FindIndex(old(selectedItems), id);
        selectedItems == old(selectedItems)[..i] + old(selectedItems)[i + 1..]
      ensures id !in old(selectedItems) ==> selectedItems == old(selectedItems) + [id]
    {
      ghost var s := selectedItems;
      Selection.ToggleKeepsNoDuplicates(s, id);
      var alreadySelected := Selection.FindIndex(selectedItems, id);
      if alreadySelected >= 0 {
        Selection.ToggleRemoves(s, alreadySelected);
        assert Selection.Toggle(s, id) == Selection.Without(s, id);
        selectedItems := Selection.Without(selectedItems, id);
      } else {
        selectedItems := selectedItems + [id];
        assert selectedItems == Selection.Toggle(s, id);
      }
    }

    /** The drop zone's callback: the dropped file replaces any earlier one. */
    method UploadFile(file: Payload.File)
      requires Valid()
      modifies this`selectedFile
      ensures Valid()
      ensures selectedFile == Some(file)
    {
      selectedFile := Some(file);
    }

    /**
     * `handleSubmit` up to the request: the body, built one append at a time.
     * `show` is the engine's number-to-string conversion for the coordinates.
     */
    method Submit(show: real -> string) returns (data: seq<Payload.Entry>)
      ensures data == Payload.Build(formData, position, selectedItems, selectedFile, show)
      ensures Payload.Decode(data) == Some(Payload.Submission(formData, selectedItems, selectedFile))
    {
      var name, email, whatsapp, city, uf := formData.name, formData.email, formData.whatsapp, formData.city, formData.uf;
      var latitude, longitude := position.lat, position.lng;
      data := [];
      data := data + [(Contact.Key(Contact.Name), Payload.Text(name))];
      data := data + [(Contact.Key(Contact.Email), Payload.Text(email))];
      data := data + [(Contact.Key(Contact.Whatsapp), Payload.Text(whatsapp))];
      data := data + [(Contact.Key(Contact.Uf), Payload.Text(uf))];
      data := data + [(Contact.Key(Contact.City), Payload.Text(city))];
      data := data + [(Payload.LATITUDE_KEY, Payload.Text(show(latitude)))];
      data := data + [(Payload.LONGITUDE_KEY, Payload.Text(show(longitude)))];
      data := data + [(Payload.ITEMS_KEY, Payload.Text(Payload.ItemsText(selectedItems)))];
      if selectedFile.Some? {
        data := data + [(Payload.IMAGE_KEY, Payload.Blob(selectedFile.value))];
      }
      Payload.DecodeBuild(formData, position, selectedItems, selectedFile, show);
    }
  }
}
