/** The section written for a cloud storage, and when the editor takes it for one section. */
module IniConfig {
  import opened Text
  import opened IniFile
  import opened IniSections

  datatype Field = Field(key: string, value: string)

  function FieldLine(f: Field): string {
    f.key + " = " + f.value
  }

  function FieldText(fields: seq<Field>): string {
    if fields == [] then "" else FieldLine(fields[0]) + "\n" + FieldText(fields[1..])
  }

  /** The text handed to the editor: the header line, then a line for each field that is set. */
  function SectionText(name: string, fields: seq<Field>): string {
    TrimSpace(Header(name) + "\n" + FieldText(fields))
  }

  function Optional(key: string, value: string): seq<Field> {
    if value != "" then [Field(key, value)] else []
  }

  /** The fields written, in order; an optional one that is empty is left out. */
  function ConfigFields(
      kind: string, scope: string, clientID: string, clientSecret: string, tokenURL: string, token: string,
      root: string): (r: seq<Field>)
    ensures forall i :: 0 <= i < |r| ==> KnownKey(r[i].key)
  {
    [Field("type", kind), Field("scope", scope)] + Optional("client_id", clientID)
    + Optional("client_secret", clientSecret) + Optional("token_url", tokenURL)
    + [Field("token", token)] + Optional("root_folder_id", root)
  }

  /** The folder written: only Google Drive has one, and the name of the top folder is left out. */
  function RootFolder(drive: bool, rootPath: string): string {
    if drive && TrimSpace(rootPath) != "root" then TrimSpace(rootPath) else ""
  }

  /** Which lines the section has: type, scope and token always, the client's and the token URL when they
      are set, and the folder when the storage is Google Drive and its folder, trimmed, is neither empty nor
      "root". */
  lemma FieldsIff(
      kind: string, scope: string, clientID: string, clientSecret: string, tokenURL: string, token: string,
      drive: bool, rootPath: string, key: string, value: string)
    ensures
      var fields := ConfigFields(kind, scope, clientID, clientSecret, tokenURL, token, RootFolder(drive, rootPath));
      Field(key, value) in fields <==>
        || (key == "type" && value == kind) || (key == "scope" && value == scope) || (key == "token" && value == token)
        || (value != "" && ((key == "client_id" && value == clientID) || (key == "client_secret" && value == clientSecret)
                            || (key == "token_url" && value == tokenURL)))
        || (key == "root_folder_id" && drive && value == TrimSpace(rootPath) && value != "" && value != "root")
  {
    hide TrimSpace;
    InParts(Field(key, value), [Field("type", kind), Field("scope", scope)], Optional("client_id", clientID),
      Optional("client_secret", clientSecret), Optional("token_url", tokenURL), [Field("token", token)],
      Optional("root_folder_id", RootFolder(drive, rootPath)));
  }

  lemma InParts<T>(x: T, a: seq<T>, b: seq<T>, c: seq<T>, d: seq<T>, e: seq<T>, f: seq<T>)
    ensures x in a + b + c + d + e + f <==> x in a || x in b || x in c || x in d || x in e || x in f
  {
  }

  predicate KnownKey(key: string) {
    || key == "type" || key == "scope" || key == "client_id" || key == "client_secret" || key == "token_url"
    || key == "token" || key == "root_folder_id"
  }

  lemma KnownKeyPlain(key: string)
    requires KnownKey(key)
    ensures PlainKey(key) && Without(key, '\n')
  {
  }

  /** A line with an inner name is its own header line. */
  lemma HeaderTrimmed(name: string)
    ensures TrimSpace(Header(name)) == Header(name)
  {
    var h := Header(name);
    assert h[0] == '[' && h[|h| - 1] == ']';
  }

  lemma OneLine(line: string)
    requires Without(line, '\n')
    ensures CleanText(line) == CleanLine(line)
  {
    hide IsSpace, TrimSpace, Split, CleanLine;
    SplitPlain(line, '\n');
    CleanFirst(line, []);
    assert [line] + [] == [line];
  }

  lemma HeaderText(name: string)
    requires Without(name, '\n')
    ensures CleanText(Header(name)) == [Header(name)]
  {
    hide IsSpace, TrimSpace, CleanText;
    var h := Header(name);
    forall i | 0 <= i < |h| ensures h[i] != '\n' {
      assert h[i] == '[' || h[i] == ']' || h[i] == name[i - 1];
    }
    OneLine(h);
    HeaderTrimmed(name);
  }

  /** The text written is one section exactly when no line of its fields looks like a header. */
  lemma SectionTextIsSection(name: string, fields: seq<Field>)
    requires Without(name, '\n')
    ensures IsSection(name, SectionText(name, fields)) <==> NoHeaders(CleanText(FieldText(fields)))
    ensures CleanText(SectionText(name, fields)) == [Header(name)] + CleanText(FieldText(fields))
  {
    hide IsSpace, TrimSpace, CleanText, FieldText, Header, NoHeaders;
    TrimText(Header(name) + "\n" + FieldText(fields));
    TextConcat(Header(name), FieldText(fields));
    HeaderText(name);
    var cl := CleanText(FieldText(fields));
    assert ([Header(name)] + cl)[1..] == cl;
  }

  /** A key that starts a line starts no header and is not blank. */
  predicate PlainKey(key: string) {
    key != "" && key[0] != '[' && !IsSpace(key[0])
  }

  /** Values without line breaks keep every field on a line of its own. */
  lemma {:induction false} FieldsAreLines(fields: seq<Field>)
    requires forall i :: 0 <= i < |fields| ==> PlainKey(fields[i].key) && Without(FieldLine(fields[i]), '\n')
    ensures NoHeaders(CleanText(FieldText(fields)))
  {
    hide IsSpace, TrimSpace, CleanText, IsHeader, CleanLine, PlainKey, FieldLine;
    if fields == [] {
      EmptyText();
    } else {
      var f := fields[0];
      assert PlainKey(f.key);
      FieldsAreLines(fields[1..]);
      TextConcat(FieldLine(f), FieldText(fields[1..]));
      OneLine(FieldLine(f));
      FieldLineIsPlain(f);
    }
  }

  lemma FieldLineIsPlain(f: Field)
    requires PlainKey(f.key)
    ensures NoHeaders(CleanLine(FieldLine(f)))
  {
    hide IsSpace;
    var line := FieldLine(f);
    assert line[0] == f.key[0];
    assert TrimLeft(line) == line;
  }

  /** The section written for a cloud storage is one section whenever its values break no line. */
  lemma ConfigIsSection(
      name: string, kind: string, scope: string, clientID: string, clientSecret: string, tokenURL: string,
      token: string, drive: bool, rootPath: string)
    requires Without(name, '\n')
    requires
      var fields := ConfigFields(kind, scope, clientID, clientSecret, tokenURL, token, RootFolder(drive, rootPath));
      forall i :: 0 <= i < |fields| ==> Without(fields[i].value, '\n')
    ensures
      var fields := ConfigFields(kind, scope, clientID, clientSecret, tokenURL, token, RootFolder(drive, rootPath));
      IsSection(name, SectionText(name, fields))
  {
    hide TrimSpace, RootFolder, CleanText, FieldText, NoHeaders, IsSection, ConfigFields, KnownKey, PlainKey, FieldLine, Without;
    var fields := ConfigFields(kind, scope, clientID, clientSecret, tokenURL, token, RootFolder(drive, rootPath));
    forall i | 0 <= i < |fields| ensures PlainKey(fields[i].key) && Without(FieldLine(fields[i]), '\n') {
      KnownKeyPlain(fields[i].key);
      FieldLineWithout(fields[i]);
    }
    FieldsAreLines(fields);
    SectionTextIsSection(name, fields);
  }

  lemma FieldLineWithout(f: Field)
    requires Without(f.key, '\n') && Without(f.value, '\n')
    ensures Without(FieldLine(f), '\n')
  {
    var line := FieldLine(f);
    var k := |f.key|;
    forall i | 0 <= i < |line| ensures line[i] != '\n' {
      assert line[i] == if i < k then f.key[i] else if i < k + 3 then " = "[i - k] else f.value[i - k - 3];
    }
  }
}
