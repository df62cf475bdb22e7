/**
 * Turning the text a contacts script prints into records: the guards on
 * empty and marker output, the abstract JSON decoding, and the mapping
 * from the flat decoded row to a `Contact` or `ContactGroup`.
 */
module Parse {
  import opened Common
  import opened Text
  import opened Models

  /** One decoded contact object as the scripts emit it; `note` only comes with a single lookup. */
  datatype ContactRow = ContactRow(
    id: string,
    fn: string,
    ln: string,
    name: string,
    email: string,
    phone: string,
    org: string,
    title: string,
    note: Option<string>)

  /** One decoded group object. */
  datatype GroupRow = GroupRow(id: string, name: string, count: int)

  /**
   * The JSON decoder, foreign code: each entry yields the decoded value,
   * or `None` where decoding throws.
   */
  datatype Decoder = Decoder(
    rows: string -> Option<seq<ContactRow>>,
    row: string -> Option<ContactRow>,
    groups: string -> Option<seq<GroupRow>>)

  /** Script output is always trimmed of whitespace and newlines before it is looked at. */
  function TrimOutput(output: string): string {
    Trim(output, WhitespacesAndNewlines)
  }

  /**
   * The display name: the backend's `name` when it has one, otherwise the
   * first and last name joined by a space and trimmed of `.whitespaces`.
   */
  function FullName(row: ContactRow): (r: string)
    ensures row.name != "" ==> r == row.name
    ensures row.name == "" ==> IsTrimOf(r, row.fn + " " + row.ln, Whitespaces)
  {
    if row.name == "" then Trim(row.fn + " " + row.ln, Whitespaces) else row.name
  }

  /** An empty string stands for a missing value. */
  function NonEmpty(s: string): (r: Option<string>)
    ensures r.None? <==> s == ""
    ensures r.Some? ==> r.value == s
  {
    if s == "" then None else Some(s)
  }

  /** An empty string stands for an empty list, anything else for a one-element list. */
  function SingletonUnlessEmpty(s: string): (r: seq<string>)
    ensures |r| <= 1
    ensures r == [] <==> s == ""
    ensures forall x :: x in r ==> x == s
  {
    if s == "" then [] else [s]
  }

  /** The mapping applied to every decoded row. */
  function RowToContact(row: ContactRow): (c: Contact)
    ensures c.id == row.id && c.firstName == row.fn && c.lastName == row.ln && c.note == row.note
    ensures c.fullName == FullName(row)
    ensures |c.emails| <= 1 && (c.emails == [] <==> row.email == "") && (forall e :: e in c.emails ==> e == row.email)
    ensures |c.phones| <= 1 && (c.phones == [] <==> row.phone == "") && (forall p :: p in c.phones ==> p == row.phone)
    ensures (c.organization.None? <==> row.org == "") && (c.organization.Some? ==> c.organization.value == row.org)
    ensures (c.jobTitle.None? <==> row.title == "") && (c.jobTitle.Some? ==> c.jobTitle.value == row.title)
    ensures c.birthday.None? && c.addresses == []
  {
    Contact(
      row.id, row.fn, row.ln, FullName(row),
      SingletonUnlessEmpty(row.email), SingletonUnlessEmpty(row.phone),
      NonEmpty(row.org), NonEmpty(row.title), row.note,
      None, [])
  }

  /** `items.map(RowToContact)`. */
  function MapRows(rows: seq<ContactRow>): (cs: seq<Contact>)
    ensures |cs| == |rows|
    ensures forall i :: 0 <= i < |rows| ==> cs[i] == RowToContact(rows[i])
  {
    if rows == [] then [] else [RowToContact(rows[0])] + MapRows(rows[1..])
  }

  /** `ContactGroup(id:name:memberCount:)` from a decoded group, `count` becoming `memberCount`. */
  function RowToGroup(row: GroupRow): (g: ContactGroup)
    ensures g.id == row.id && g.name == row.name && g.memberCount == row.count
  {
    ContactGroup(row.id, row.name, row.count)
  }

  /** `items.map(RowToGroup)`. */
  function MapGroups(rows: seq<GroupRow>): (gs: seq<ContactGroup>)
    ensures |gs| == |rows|
    ensures forall i :: 0 <= i < |rows| ==> gs[i] == RowToGroup(rows[i])
  {
    if rows == [] then [] else [RowToGroup(rows[0])] + MapGroups(rows[1..])
  }

  /**
   * `parseJSONContacts`: no contacts for empty output, for the `[]`
   * marker and for output the decoder rejects; otherwise one contact per
   * decoded row, in order. It never fails.
   */
  function ParseContacts(output: string, dec: Decoder): (r: seq<Contact>)
    ensures var t := TrimOutput(output); t == "" || t == "[]" || dec.rows(t).None? ==> r == []
    ensures var t := TrimOutput(output);
      t != "" && t != "[]" && dec.rows(t).Some? ==>
        |r| == |dec.rows(t).value| && forall i :: 0 <= i < |r| ==> r[i] == RowToContact(dec.rows(t).value[i])
  {
    var t := TrimOutput(output);
    if t == "" || t == "[]" then []
    else match dec.rows(t)
      case None => []
      case Some(rows) => MapRows(rows)
  }

  /**
   * `parseJSONContact`: no contact for empty output, for the `{}` marker
   * and for output the decoder rejects; otherwise the decoded row mapped.
   */
  function ParseContact(output: string, dec: Decoder): (r: Option<Contact>)
    ensures var t := TrimOutput(output); r.None? <==> (t == "" || t == "{}" || dec.row(t).None?)
    ensures r.Some? ==> r.value == RowToContact(dec.row(TrimOutput(output)).value)
  {
    var t := TrimOutput(output);
    if t == "" || t == "{}" then None
    else match dec.row(t)
      case None => None
      case Some(row) => Some(RowToContact(row))
  }

  /**
   * `parseJSONGroups`: no groups for empty output, for the `[]` marker
   * and for output the decoder rejects; otherwise one group per decoded
   * row, in order.
   */
  function ParseGroups(output: string, dec: Decoder): (r: seq<ContactGroup>)
    ensures var t := TrimOutput(output); t == "" || t == "[]" || dec.groups(t).None? ==> r == []
    ensures var t := TrimOutput(output);
      t != "" && t != "[]" && dec.groups(t).Some? ==>
        |r| == |dec.groups(t).value| && forall i :: 0 <= i < |r| ==> r[i] == RowToGroup(dec.groups(t).value[i])
  {
    var t := TrimOutput(output);
    if t == "" || t == "[]" then []
    else match dec.groups(t)
      case None => []
      case Some(rows) => MapGroups(rows)
  }

  /**
   * With no display name, a first and last name that carry no spaces at
   * their ends are joined by exactly one space.
   */
  lemma FullNameJoinsParts(row: ContactRow)
    requires row.name == "" && row.fn != "" && row.ln != ""
    requires Trimmed(row.fn, Whitespaces) && Trimmed(row.ln, Whitespaces)
    ensures FullName(row) == row.fn + " " + row.ln
  {
    var j := row.fn + " " + row.ln;
    assert j[0] == row.fn[0] && j[|j| - 1] == row.ln[|row.ln| - 1];
    assert [] + j + [] == j;
    TrimUnique([], j, [], Whitespaces);
  }

  /** With no display name and no last name, the full name is the trimmed first name. */
  lemma FullNameFirstOnly(row: ContactRow)
    requires row.name == "" && row.ln == ""
    ensures FullName(row) == Trim(row.fn, Whitespaces)
  {
    assert row.fn + " " + row.ln == [] + row.fn + " ";
    TrimPadded([], row.fn, " ", Whitespaces);
  }

  /** With no display name and no first name, the full name is the trimmed last name. */
  lemma FullNameLastOnly(row: ContactRow)
    requires row.name == "" && row.fn == ""
    ensures FullName(row) == Trim(row.ln, Whitespaces)
  {
    assert row.fn + " " + row.ln == " " + row.ln + [];
    TrimPadded(" ", row.ln, [], Whitespaces);
  }

  /**
   * The full name is empty exactly when there is no display name and the
   * first and last names consist of `.whitespaces` only (which includes
   * both being empty).
   */
  lemma FullNameEmptyIff(row: ContactRow)
    ensures FullName(row) == "" <==> row.name == "" && AllIn(row.fn, Whitespaces) && AllIn(row.ln, Whitespaces)
  {
    if row.name == "" {
      TrimEmptyIff(row.fn + " " + row.ln, Whitespaces);
      AllInJoin(row.fn, row.ln, Whitespaces);
    }
  }

  /** Flattens a contact back into the row shape the scripts emit. */
  function ContactToRow(c: Contact): ContactRow {
    ContactRow(
      c.id, c.firstName, c.lastName, c.fullName,
      if c.emails == [] then "" else c.emails[0],
      if c.phones == [] then "" else c.phones[0],
      c.organization.GetOr(""), c.jobTitle.GetOr(""), c.note)
  }

  /** A row with a display name survives the mapping to a contact and back unchanged. */
  lemma RowRoundTrip(row: ContactRow)
    requires row.name != ""
    ensures ContactToRow(RowToContact(row)) == row
  {
  }

  /**
   * A contact with a display name, at most one non-empty email and phone,
   * no empty organization or job title, and no birthday or addresses is
   * rebuilt exactly by flattening it and mapping it back.
   */
  lemma ContactRoundTrip(c: Contact)
    requires c.fullName != ""
    requires |c.emails| <= 1 && (forall e :: e in c.emails ==> e != "")
    requires |c.phones| <= 1 && (forall p :: p in c.phones ==> p != "")
    requires c.organization != Some("") && c.jobTitle != Some("")
    requires c.birthday.None? && c.addresses == []
    ensures RowToContact(ContactToRow(c)) == c
  {
    var d := RowToContact(ContactToRow(c));
    if c.emails != [] { assert c.emails == [c.emails[0]] && c.emails[0] in c.emails; }
    if c.phones != [] { assert c.phones == [c.phones[0]] && c.phones[0] in c.phones; }
    assert d.emails == c.emails && d.phones == c.phones;
    assert d.organization == c.organization && d.jobTitle == c.jobTitle;
  }
}
