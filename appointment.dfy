/** The appointment page (`src/app/appointment/page.tsx`): the booking form,
    the service lookup with its fallback, the send-button rule, and the
    WhatsApp booking message before URL encoding. */
module Appointment {
  import opened Text
  import opened Wrappers

  /** The `name` attributes of the form's inputs. */
  datatype FormField = Name | Phone | Email | ServiceId | PreferredDate | Notes

  datatype FormData = FormData(name: string, phone: string, email: string, service: string, preferredDate: string, notes: string)

  const EmptyForm := FormData("", "", "", "", "", "")

  function FieldValue(form: FormData, f: FormField): string {
    match f
    case Name => form.name
    case Phone => form.phone
    case Email => form.email
    case ServiceId => form.service
    case PreferredDate => form.preferredDate
    case Notes => form.notes
  }

  /** `{ ...formData, [e.target.name]: e.target.value }`: the named field
      takes the value, the others keep theirs. */
  function WithField(form: FormData, f: FormField, value: string): (r: FormData)
    ensures FieldValue(r, f) == value
    ensures forall g | g != f :: FieldValue(r, g) == FieldValue(form, g)
  {
    match f
    case Name => form.(name := value)
    case Phone => form.(phone := value)
    case Email => form.(email := value)
    case ServiceId => form.(service := value)
    case PreferredDate => form.(preferredDate := value)
    case Notes => form.(notes := value)
  }

  /** Edits to two different fields commute. */
  lemma WithFieldCommutes(form: FormData, f: FormField, g: FormField, v: string, w: string)
    requires f != g
    ensures WithField(WithField(form, f, v), g, w) == WithField(WithField(form, g, w), f, v)
  {
    var a := WithField(WithField(form, f, v), g, w);
    var b := WithField(WithField(form, g, w), f, v);
    assert forall h :: FieldValue(a, h) == FieldValue(b, h);
    assert FieldValue(a, Name) == FieldValue(b, Name);
    assert FieldValue(a, Phone) == FieldValue(b, Phone);
    assert FieldValue(a, Email) == FieldValue(b, Email);
    assert FieldValue(a, ServiceId) == FieldValue(b, ServiceId);
    assert FieldValue(a, PreferredDate) == FieldValue(b, PreferredDate);
    assert FieldValue(a, Notes) == FieldValue(b, Notes);
  }

  // ---------------------------------------------------------------------------
  // Services
  // ---------------------------------------------------------------------------

  datatype Service = Service(id: string, name: string, duration: string, price: string)

  const Free := "Ücretsiz"
  const CallForPrice := "Fiyat Bilgisi İçin Arayın"

  const Services: seq<Service> := [
    Service("skin-analysis", "Cilt Analizi", "30 dk", Free),
    Service("consultation", "Ürün Danışmanlığı", "20 dk", Free),
    Service("peel-treatment", "Peeling Tedavisi", "60 dk", CallForPrice),
    Service("skincare-routine", "Kişisel Cilt Bakım Programı", "45 dk", CallForPrice),
    Service("acne-treatment", "Akne Tedavi Planı", "60 dk", CallForPrice),
    Service("anti-aging", "Yaşlanma Karşıtı Program", "60 dk", CallForPrice)
  ]

  /** `services.find(s => s.id === id)`: the first service with that id,
      and nothing exactly when none has it. */
  function FindService(services: seq<Service>, id: string): (r: Option<Service>)
    ensures r.None? <==> forall i | 0 <= i < |services| :: services[i].id != id
    ensures r.Some? ==> exists i | 0 <= i < |services| ::
      services[i] == r.value && r.value.id == id && forall j | 0 <= j < i :: services[j].id != id
  {
    if services == [] then None
    else if services[0].id == id then
      Some(services[0])
    else
      var r := FindService(services[1..], id);
      if r.Some? then
        var i :| 0 <= i < |services[1..]| && services[1..][i] == r.value && r.value.id == id
          && forall j | 0 <= j < i :: services[1..][j].id != id;
        assert services[i + 1] == r.value;
        assert forall j | 0 <= j < i + 1 :: services[j].id != id by {
          forall j | 0 <= j < i + 1 ensures services[j].id != id {
            if j > 0 { assert services[j] == services[1..][j - 1]; }
          }
        }
        r
      else
        r
  }

  const FallbackService := "Genel Danışmanlık"

  /** The service name in the message: the found service's name, or
      `Genel Danışmanlık` when nothing matches. */
  function ServiceName(services: seq<Service>, id: string): (r: string)
    ensures (forall i | 0 <= i < |services| :: services[i].id != id) ==> r == FallbackService
    ensures (exists i | 0 <= i < |services| :: services[i].id == id) ==>
      exists i | 0 <= i < |services| :: services[i].id == id && services[i].name == r
  {
    var s := FindService(services, id);
    if s.Some? then s.value.name else FallbackService
  }

  /** The first service is found by its id, and the initial empty choice
      falls back. */
  lemma ServiceNamesOfTable()
    ensures ServiceName(Services, "skin-analysis") == "Cilt Analizi"
    ensures ServiceName(Services, EmptyForm.service) == FallbackService
  {
    assert Services[0].id == "skin-analysis";
    assert forall i | 0 <= i < |Services| :: |Services[i].id| > 0;
  }

  // ---------------------------------------------------------------------------
  // Sending
  // ---------------------------------------------------------------------------

  /** `disabled={!formData.name || !formData.phone}`. */
  predicate SendDisabled(form: FormData) {
    form.name == "" || form.phone == ""
  }

  /** Only the name and the phone decide the button: an edit to any other
      field leaves it as it was, and emptying either of the two disables it. */
  lemma SendDisabledFields(form: FormData, f: FormField, value: string)
    ensures f != Name && f != Phone ==> (SendDisabled(WithField(form, f, value)) <==> SendDisabled(form))
    ensures (f == Name || f == Phone) && value == "" ==> SendDisabled(WithField(form, f, value))
  {
  }

  /** Filling in both the name and the phone, in either order, enables the
      button, whatever else the form holds; any non-empty text counts, white
      space included. */
  lemma SendEnabledWhenFilled(form: FormData, name: string, phone: string)
    ensures !SendDisabled(WithField(WithField(form, Name, name), Phone, phone)) <==> name != "" && phone != ""
    ensures !SendDisabled(WithField(WithField(form, Phone, phone), Name, name)) <==> name != "" && phone != ""
  {
  }

  const Greeting := "Merhaba! phFormula " + "cilt bakım merkezi " + "için randevu " + "almak istiyorum. "
  const Request := "Yukarıda bilgilerimi " + "paylaştım. " + "En uygun tarih " + "ve saati " + "ayarlayabilir misiniz?"

  /** The labels of the six detail lines, in message order. */
  const NameLabel := "👤 Ad Soyad: "
  const PhoneLabel := "📱 Telefon: "
  const EmailLabel := "📧 E-posta: "
  const ServiceLabel := "🔬 Hizmet: "
  const DateLabel := "📅 Tercih Edilen Tarih: "
  const NotesLabel := "📝 Notlar: "

  /** The lines of the booking message. */
  function BookingLines(form: FormData, serviceName: string): (r: seq<string>)
    ensures |r| == 12
    ensures r[2] == NameLabel + form.name && r[3] == PhoneLabel + form.phone
    ensures r[4] == EmailLabel + form.email && r[5] == ServiceLabel + serviceName
    ensures r[6] == DateLabel + form.preferredDate && r[7] == NotesLabel + form.notes
  {
    ["🎯 RANDEVU TALEBİ", "",
     NameLabel + form.name, PhoneLabel + form.phone, EmailLabel + form.email,
     ServiceLabel + serviceName, DateLabel + form.preferredDate, NotesLabel + form.notes,
     "", Greeting + Request, "", "Teşekkürler! 🌟"]
  }

  /** The booking message, its lines joined by newlines. */
  function BookingMessage(form: FormData, serviceName: string): string {
    Join(BookingLines(form, serviceName), "\n")
  }

  predicate OneLine(s: string) {
    forall i | 0 <= i < |s| :: s[i] != '\n'
  }

  lemma OneLineAppend(a: string, b: string)
    requires OneLine(a) && OneLine(b)
    ensures OneLine(a + b)
  {
    assert forall i | |a| <= i < |a + b| :: (a + b)[i] == b[i - |a|];
  }

  lemma FixedLinesOneLine()
    ensures OneLine("🎯 RANDEVU TALEBİ") && OneLine("Teşekkürler! 🌟")
    ensures OneLine(NameLabel) && OneLine(PhoneLabel) && OneLine(EmailLabel)
    ensures OneLine(ServiceLabel) && OneLine(DateLabel) && OneLine(NotesLabel)
  {
  }

  lemma GreetingOneLine()
    ensures OneLine(Greeting + Request)
  {
    OneLineAppend("Merhaba! phFormula ", "cilt bakım merkezi ");
    OneLineAppend("Merhaba! phFormula " + "cilt bakım merkezi ", "için randevu ");
    OneLineAppend("Merhaba! phFormula " + "cilt bakım merkezi " + "için randevu ", "almak istiyorum. ");
    OneLineAppend("Yukarıda bilgilerimi ", "paylaştım. ");
    OneLineAppend("Yukarıda bilgilerimi " + "paylaştım. ", "En uygun tarih ");
    OneLineAppend("Yukarıda bilgilerimi " + "paylaştım. " + "En uygun tarih ", "ve saati ");
    OneLineAppend("Yukarıda bilgilerimi " + "paylaştım. " + "En uygun tarih " + "ve saati ", "ayarlayabilir misiniz?");
    OneLineAppend(Greeting, Request);
  }

  /** For single-line entries the message reads, line by line: name, phone,
      e-mail, the resolved service, date and notes, in this order. */
  lemma BookingMessageOrder(form: FormData, serviceName: string)
    requires OneLine(form.name) && OneLine(form.phone) && OneLine(form.email)
    requires OneLine(serviceName) && OneLine(form.preferredDate) && OneLine(form.notes)
    ensures var lines := Split(BookingMessage(form, serviceName), '\n');
      && |lines| == 12
      && lines[2] == NameLabel + form.name && lines[3] == PhoneLabel + form.phone
      && lines[4] == EmailLabel + form.email && lines[5] == ServiceLabel + serviceName
      && lines[6] == DateLabel + form.preferredDate && lines[7] == NotesLabel + form.notes
  {
    var lines := BookingLines(form, serviceName);
    FixedLinesOneLine();
    GreetingOneLine();
    forall i | 0 <= i < |lines| ensures '\n' !in lines[i] {
      assert OneLine(lines[i]);
    }
    SplitJoin(lines, '\n');
  }

  // ---------------------------------------------------------------------------
  // The page state
  // ---------------------------------------------------------------------------

  const BookingUrlPrefix := "https://wa.me/905551234567?text="

  class AppointmentPage {
    var formData: FormData

    constructor()
      ensures formData == EmptyForm && SendDisabled(formData)
    {
      formData := EmptyForm;
    }

    /** `handleInputChange`: only the field the event names changes. */
    method HandleInputChange(field: FormField, value: string)
      modifies this
      ensures formData == WithField(old(formData), field, value)
    {
      formData := WithField(formData, field, value);
    }

    /** `handleWhatsAppBooking`: the URL the page opens, with the message not
        encoded. */
    method HandleWhatsAppBooking() returns (url: string)
      ensures url == BookingUrlPrefix + BookingMessage(formData, ServiceName(Services, formData.service))
    {
      var serviceName := ServiceName(Services, formData.service);
      url := BookingUrlPrefix + BookingMessage(formData, serviceName);
    }
  }
}
