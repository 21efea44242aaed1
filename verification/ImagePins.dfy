/** The `images:` block of a kustomization and `read_image_field`. */
module ImagePins {
  /** A line as awk sees it: its whitespace-separated fields. */
  type Line = seq<string>

  const IMAGE_NAME := "spark-batch"

  predicate ContainsAt(w: string, p: string, i: nat) { i + |p| <= |w| && w[i..i + |p|] == p }

  predicate Contains(w: string, p: string) { exists i :: 0 <= i <= |w| && ContainsAt(w, p, i) }

  predicate EndsWith(w: string, p: string) { |p| <= |w| && ContainsAt(w, p, |w| - |p|) }

  /** `/name: spark-batch$/`. */
  predicate StartsEntry(l: Line) { |l| >= 2 && l[|l| - 1] == IMAGE_NAME && EndsWith(l[|l| - 2], "name:") }

  /** `/name:/`. */
  predicate MentionsName(l: Line) { exists i :: 0 <= i < |l| && Contains(l[i], "name:") }

  predicate IsField(l: Line, field: string) { l != [] && l[0] == field + ":" }

  function SecondField(l: Line): string { if |l| >= 2 then l[1] else "" }

  /** The awk program from a state on; "" when it prints nothing. */
  function Awk(lines: seq<Line>, inEntry: bool, field: string): string {
    if lines == [] then ""
    else if StartsEntry(lines[0]) then Awk(lines[1..], true, field)
    else if inEntry && IsField(lines[0], field) then SecondField(lines[0])
    else if inEntry && MentionsName(lines[0]) then ""
    else Awk(lines[1..], inEntry, field)
  }

  method ReadImageField(lines: seq<Line>, field: string) returns (value: string)
    ensures value == Awk(lines, false, field)
  {
    var inEntry := false;
    for k := 0 to |lines|
      invariant Awk(lines, false, field) == Awk(lines[k..], inEntry, field)
    {
      assert lines[k..][0] == lines[k] && lines[k..][1..] == lines[k + 1..];
      if StartsEntry(lines[k]) {
        inEntry := true;
      } else if inEntry && IsField(lines[k], field) {
        return SecondField(lines[k]);
      } else if inEntry && MentionsName(lines[k]) {
        return "";
      }
    }
    value := "";
  }

  // ---- what kustomize writes -------------------------------------------------------------------

  datatype Image = Image(name: string, newName: string, newTag: string)

  datatype Kustomization = Kustomization(header: seq<Line>, images: seq<Image>, trailer: seq<Line>)

  function Entry(i: Image): seq<Line> { [["-", "name:", i.name], ["newName:", i.newName], ["newTag:", i.newTag]] }

  function Render(images: seq<Image>): seq<Line> {
    if images == [] then [] else Entry(images[0]) + Render(images[1..])
  }

  function Text(k: Kustomization): seq<Line> { k.header + Render(k.images) + k.trailer }

  /** `kustomize edit set image`: the entry is rewritten in place, or added. */
  function SetImage(images: seq<Image>, i: Image): seq<Image> {
    if images == [] then [i]
    else if images[0].name == i.name then [i] + images[1..]
    else [images[0]] + SetImage(images[1..], i)
  }

  function FindImage(images: seq<Image>, name: string): Image {
    if images == [] then Image(name, "", "")
    else if images[0].name == name then images[0]
    else FindImage(images[1..], name)
  }

  predicate HasImage(images: seq<Image>, name: string) { exists k :: 0 <= k < |images| && images[k].name == name }

  lemma {:induction false} SetThenFind(images: seq<Image>, i: Image)
    ensures FindImage(SetImage(images, i), i.name) == i && HasImage(SetImage(images, i), i.name)
  {
    var after := SetImage(images, i);
    if images == [] || images[0].name == i.name {
      assert after[0].name == i.name;
    } else {
      SetThenFind(images[1..], i);
      var k :| 0 <= k < |SetImage(images[1..], i)| && SetImage(images[1..], i)[k].name == i.name;
      assert after[k + 1].name == i.name;
    }
  }

  /** No other image is touched. */
  lemma {:induction false} SetKeepsOthers(images: seq<Image>, i: Image, name: string)
    requires name != i.name
    ensures FindImage(SetImage(images, i), name) == FindImage(images, name)
    ensures HasImage(SetImage(images, i), name) <==> HasImage(images, name)
  {
    if images != [] && images[0].name != i.name {
      SetKeepsOthers(images[1..], i, name);
      HasImageTail(images, name);
      HasImageTail(SetImage(images, i), name);
    } else if images != [] {
      HasImageTail(images, name);
      HasImageTail(SetImage(images, i), name);
    }
  }

  lemma HasImageTail(images: seq<Image>, name: string)
    requires images != []
    ensures HasImage(images, name) <==> images[0].name == name || HasImage(images[1..], name)
  {
    if k :| 1 <= k < |images| && images[k].name == name { assert images[1..][k - 1].name == name; }
    if k :| 0 <= k < |images| - 1 && images[1..][k].name == name { assert images[k + 1].name == name; }
  }

  // ---- reading back -----------------------------------------------------------------------------

  lemma NameWords()
    ensures EndsWith("name:", "name:") && Contains("name:", "name:")
    ensures !EndsWith("newName:", "name:") && !Contains("newName:", "name:")
    ensures !EndsWith("newTag:", "name:") && !Contains("newTag:", "name:")
  {
    assert ContainsAt("name:", "name:", 0);
    var w, t := "newName:", "newTag:";
    forall i | 0 <= i <= |w| ensures !ContainsAt(w, "name:", i) {
      if i + 5 <= |w| { assert w[i..i + 5][1] == w[i + 1] && w[i..i + 5][0] == w[i]; }
    }
    forall i | 0 <= i <= |t| ensures !ContainsAt(t, "name:", i) {
      if i + 5 <= |t| { assert t[i..i + 5][1] == t[i + 1] && t[i..i + 5][0] == t[i]; }
    }
  }

  lemma {:induction false} SkipsForeignLines(pre: seq<Line>, rest: seq<Line>, field: string)
    requires forall k :: 0 <= k < |pre| ==> !StartsEntry(pre[k])
    ensures Awk(pre + rest, false, field) == Awk(rest, false, field)
  {
    if pre == [] {
      assert pre + rest == rest;
    } else {
      assert (pre + rest)[1..] == pre[1..] + rest;
      SkipsForeignLines(pre[1..], rest, field);
    }
  }

  lemma ForeignEntry(i: Image)
    requires i.name != IMAGE_NAME
    ensures forall k :: 0 <= k < 3 ==> !StartsEntry(Entry(i)[k])
  {
    NameWords();
  }

  /** Inside the entry: newName is always read; newTag is read unless the image's new name
      itself contains the text `name:`, on which the program stops. */
  lemma ReadsEntry(i: Image, rest: seq<Line>)
    requires i.name == IMAGE_NAME
    ensures Awk(Entry(i) + rest, false, "newName") == i.newName
    ensures Awk(Entry(i) + rest, false, "newTag") == if Contains(i.newName, "name:") then "" else i.newTag
  {
    NameWords();
    var lines := Entry(i) + rest;
    assert lines[0] == ["-", "name:", i.name] && lines[1] == ["newName:", i.newName] && lines[2] == ["newTag:", i.newTag];
    assert lines[1..][0] == lines[1] && lines[1..][1..][0] == lines[2];
    assert StartsEntry(lines[0]) && !StartsEntry(lines[1]) && !StartsEntry(lines[2]);
    assert "newName" + ":" == "newName:" && "newTag" + ":" == "newTag:";
    var l := lines[1];
    if Contains(i.newName, "name:") { assert Contains(l[1], "name:"); }
    assert l[0] == "newName:";
    assert MentionsName(l) <==> Contains(i.newName, "name:") by {
      if MentionsName(l) { var k :| 0 <= k < |l| && Contains(l[k], "name:"); assert k == 0 || k == 1; }
    }
    assert !IsField(l, "newTag") by { assert "newName:"[3] != "newTag:"[3]; }
    var tail := lines[2..];
    assert lines[1..][1..] == tail && tail[0] == lines[2];
    assert Awk(tail, true, "newTag") == i.newTag;
    assert Awk(lines[1..], true, "newTag") == if MentionsName(l) then "" else Awk(tail, true, "newTag");
  }

  /** `read_image_field` finds the entry wherever it sits in the list. */
  lemma {:induction false} ReadsFromList(images: seq<Image>, trailer: seq<Line>)
    requires HasImage(images, IMAGE_NAME)
    ensures var i := FindImage(images, IMAGE_NAME);
      && Awk(Render(images) + trailer, false, "newName") == i.newName
      && Awk(Render(images) + trailer, false, "newTag") == if Contains(i.newName, "name:") then "" else i.newTag
  {
    var rest := Render(images[1..]) + trailer;
    assert Render(images) + trailer == Entry(images[0]) + rest;
    if images[0].name == IMAGE_NAME {
      ReadsEntry(images[0], rest);
    } else {
      var k :| 0 <= k < |images| && images[k].name == IMAGE_NAME;
      assert images[1..][k - 1].name == IMAGE_NAME;
      ForeignEntry(images[0]);
      SkipsForeignLines(Entry(images[0]), rest, "newName");
      SkipsForeignLines(Entry(images[0]), rest, "newTag");
      ReadsFromList(images[1..], trailer);
    }
  }

  /** Round trip: after `kustomize edit set image` the reader gets the written name back,
      and the written tag exactly when the name does not contain `name:`. */
  lemma WrittenPinIsReadBack(file: Kustomization, newName: string, newTag: string)
    requires forall k :: 0 <= k < |file.header| ==> !StartsEntry(file.header[k])
    requires newTag != ""
    ensures var text := Text(file.(images := SetImage(file.images, Image(IMAGE_NAME, newName, newTag))));
      && Awk(text, false, "newName") == newName
      && (Awk(text, false, "newTag") == newTag <==> !Contains(newName, "name:"))
  {
    var i := Image(IMAGE_NAME, newName, newTag);
    var after := SetImage(file.images, i);
    SetThenFind(file.images, i);
    ReadsFromList(after, file.trailer);
    var rest := Render(after) + file.trailer;
    assert file.header + Render(after) + file.trailer == file.header + rest;
    SkipsForeignLines(file.header, rest, "newName");
    SkipsForeignLines(file.header, rest, "newTag");
  }
}
