/**
 * The act being edited (`DocumentData`), the party record kept for reuse
 * (`SavedParty`) and the initial values the application page starts from.
 * Optional fields that no generator or form operation reads (documentType, tags,
 * item value, ...) are not part of the records.
 */
module Document {

  datatype Representative = Representative(name: string, position: string)

  datatype Party = Party(name: string, registrationNumber: string, address: string,
                         representative: Representative)

  datatype Item = Item(name: string, manufacturer: string, model: string, serialNumber: string,
                       components: string, quantity: int, condition: string, defects: string)

  /** `companyLogo` is the base64 data URL, "" when there is none. */
  datatype DocumentData = DocumentData(
    title: string, date: string, location: string, actNumber: string, companyLogo: string,
    handoverParty: Party, receivingParty: Party, contractReference: string,
    items: seq<Item>,
    warranty: string, documents: string, specialConditions: string, responsibility: string,
    attachments: seq<string>, useElectronicSignature: bool)

  /** A party as stored for reuse: its fields between an id and a creation time. */
  datatype SavedParty = SavedParty(id: string, name: string, registrationNumber: string,
                                   address: string, representative: Representative, createdAt: string)

  datatype MailSettings = MailSettings(smtpHost: string, smtpPort: int, smtpUser: string,
                                       smtpPassword: string, defaultSender: string)

  predicate IsBlankParty(p: Party) {
    p.name == "" && p.registrationNumber == "" && p.address == "" &&
    p.representative.name == "" && p.representative.position == ""
  }

  /** An item with every text field empty and quantity 1. */
  predicate IsBlankItem(it: Item) {
    it.name == "" && it.manufacturer == "" && it.model == "" && it.serialNumber == "" &&
    it.components == "" && it.quantity == 1 && it.condition == "" && it.defects == ""
  }

  function BlankParty(): (p: Party)
    ensures IsBlankParty(p)
  {
    Party("", "", "", Representative("", ""))
  }

  /** The item both the initial document and "add item" start from. */
  function BlankItem(): (it: Item)
    ensures IsBlankItem(it)
  {
    Item("", "", "", "", "", 1, "", "")
  }

  const InitialTitle := "Pieņemšanas–nodošanas akts"

  /** The document the page starts with; `today` is the ISO date part of the clock. */
  function InitialDocument(today: string): (d: DocumentData)
    ensures d.title == InitialTitle && d.date == today
    ensures d.location == "" && d.actNumber == "" && d.companyLogo == "" && d.contractReference == ""
    ensures IsBlankParty(d.handoverParty) && IsBlankParty(d.receivingParty)
    ensures |d.items| == 1 && IsBlankItem(d.items[0])
    ensures d.warranty == "" && d.documents == "" && d.specialConditions == "" && d.responsibility == ""
    ensures d.attachments == [] && !d.useElectronicSignature
  {
    DocumentData(InitialTitle, today, "", "", "", BlankParty(), BlankParty(), "", [BlankItem()],
                 "", "", "", "", [], false)
  }

  /** The mail settings the page starts with. */
  function InitialSettings(): (m: MailSettings)
    ensures m.smtpPort == 587
    ensures m.smtpHost == "" && m.smtpUser == "" && m.smtpPassword == "" && m.defaultSender == ""
  {
    MailSettings("", 587, "", "", "")
  }

  /** `[name, position].filter(Boolean).join(', ')`, the representative line of the
      Advanced and Fast generators. */
  function RepInfo(rep: Representative): (s: string)
    ensures s == "" <==> rep.name == "" && rep.position == ""
  {
    if rep.name != "" && rep.position != "" then rep.name + ", " + rep.position
    else rep.name + rep.position
  }

  /** `${date}${location ? `, ${location}` : ''}`, written the same way by all three generators. */
  function DateLocation(d: DocumentData): (s: string)
    ensures |d.date| <= |s| && s[..|d.date|] == d.date
    ensures d.location == "" <==> s == d.date
  {
    d.date + (if d.location != "" then ", " + d.location else "")
  }
}
