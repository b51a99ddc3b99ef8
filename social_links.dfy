/**
 * The social links card (`SocialLinksComponent`): the Discord presence
 * colour, the activities list and the Spotify entry in it, and the contact
 * form's modal and send guard. Presence data arrives from the presence
 * service; the WebSocket, the timestamp subscriptions and the timers are
 * outside this model, and each timer callback is its own method.
 */
module SocialLinks {
  import opened Wrappers

  /** An activity of the presence payload; only its name matters here. */
  datatype Activity = Activity(name: string)

  /** The payload's `d` part: the status and the activities, either possibly missing. */
  datatype Presence = Presence(discordStatus: Option<string>, activities: Option<seq<Activity>>)

  /** A presence message, whose `d` can be missing. */
  datatype LanyardData = LanyardData(d: Option<Presence>)

  const Online := "#43b581"
  const Idle := "#faa61a"
  const DoNotDisturb := "#f04747"
  const Streaming := "#593695"
  const Grey := "#747f8d"

  /** The status switch: four statuses have their own colour, everything else, missing included, is grey. */
  function StatusColor(status: Option<string>): (colour: string)
    ensures status == Some("online") ==> colour == Online
    ensures status == Some("idle") ==> colour == Idle
    ensures status == Some("dnd") ==> colour == DoNotDisturb
    ensures status == Some("streaming") ==> colour == Streaming
    ensures status !in [Some("online"), Some("idle"), Some("dnd"), Some("streaming")] ==> colour == Grey
  {
    match status
    case None => Grey
    case Some(s) =>
      if s == "online" then Online
      else if s == "idle" then Idle
      else if s == "dnd" then DoNotDisturb
      else if s == "offline" then Grey
      else if s == "streaming" then Streaming
      else if s == "invisible" then Grey
      else if s == "unknown" then Grey
      else Grey
  }

  /** `d?.discord_status`. */
  function Status(data: LanyardData): (status: Option<string>)
    ensures data.d.None? ==> status.None?
    ensures data.d.Some? ==> status == data.d.value.discordStatus
  {
    if data.d.Some? then data.d.value.discordStatus else None
  }

  /** The colour tells the four active statuses apart from each other and from every other status. */
  lemma StatusColorsDistinguish(a: Option<string>, b: Option<string>)
    requires a in [Some("online"), Some("idle"), Some("dnd"), Some("streaming")]
    ensures StatusColor(a) == StatusColor(b) <==> a == b
  {
  }

  /** `d?.activities || []`: the list when both parts are there, else empty. */
  function Activities(data: LanyardData): (acts: seq<Activity>)
    ensures data.d.None? || data.d.value.activities.None? ==> acts == []
    ensures data.d.Some? && data.d.value.activities.Some? ==> acts == data.d.value.activities.value
  {
    match data.d
    case None => []
    case Some(p) => p.activities.GetOr([])
  }

  /** `findIndex`: the first position whose activity has the name, or -1. */
  function FindIndex(acts: seq<Activity>, name: string): (i: int)
    ensures -1 <= i < |acts|
    ensures i >= 0 ==> acts[i].name == name && forall k :: 0 <= k < i ==> acts[k].name != name
    ensures i == -1 <==> forall k :: 0 <= k < |acts| ==> acts[k].name != name
  {
    if |acts| == 0 then -1
    else if acts[0].name == name then 0
    else
      var j := FindIndex(acts[1..], name);
      assert forall k :: 1 <= k < |acts| ==> acts[k] == acts[1..][k - 1];
      if j == -1 then -1 else j + 1
  }

  /** The contact form's three fields. */
  datatype ContactForm = ContactForm(name: string, email: string, message: string)

  const EmptyForm := ContactForm("", "", "")

  /** The send guard: every field truthy, that is, non-empty. */
  predicate Complete(form: ContactForm)
  {
    form.name != "" && form.email != "" && form.message != ""
  }

  class SocialLinksComponent {
    var lanyardActivities: seq<Activity>
    var spotifyActivityIndex: Option<int>
    var statusColor: string
    var showContactForm: bool
    var sending: bool
    var messageSent: bool
    var contactForm: ContactForm

    constructor ()
      ensures lanyardActivities == [] && spotifyActivityIndex == None && statusColor == Online
      ensures !showContactForm && !sending && !messageSent
      ensures contactForm == EmptyForm
    {
      lanyardActivities := [];
      spotifyActivityIndex := None;
      statusColor := Online;
      showContactForm := false;
      sending := false;
      messageSent := false;
      contactForm := EmptyForm;
    }

    /** The presence subscriber's `next`: the activities and the status colour. */
    method OnPresence(data: LanyardData)
      modifies this
      ensures lanyardActivities == Activities(data)
      ensures statusColor == StatusColor(Status(data))
      ensures spotifyActivityIndex == old(spotifyActivityIndex)
      ensures showContactForm == old(showContactForm) && sending == old(sending) && messageSent == old(messageSent)
      ensures contactForm == old(contactForm)
    {
      lanyardActivities := Activities(data);
      statusColor := StatusColor(Status(data));
    }

    /**
     * `ngOnInit`: awaiting `getLanyardData()` waits for nothing, since it only
     * subscribes to presence that arrives later over the socket, so the index
     * is taken on the list as it stands. Run on a freshly constructed
     * component that list is still empty and the index is -1; `OnPresence`
     * never recomputes it.
     */
    method NgOnInit()
      modifies this
      ensures spotifyActivityIndex == Some(FindIndex(lanyardActivities, "Spotify"))
      ensures old(lanyardActivities) == [] ==> spotifyActivityIndex == Some(-1)
      ensures lanyardActivities == old(lanyardActivities) && statusColor == old(statusColor)
      ensures showContactForm == old(showContactForm) && sending == old(sending) && messageSent == old(messageSent)
      ensures contactForm == old(contactForm)
    {
      spotifyActivityIndex := Some(FindIndex(lanyardActivities, "Spotify"));
    }

    /** `closeModal`: only a click on the backdrop itself, not on the form inside it, closes. */
    method CloseModal(target: object, currentTarget: object)
      modifies this
      ensures target == currentTarget ==> !showContactForm
      ensures target != currentTarget ==> showContactForm == old(showContactForm)
      ensures sending == old(sending) && messageSent == old(messageSent)
      ensures contactForm == old(contactForm)
      ensures lanyardActivities == old(lanyardActivities) && spotifyActivityIndex == old(spotifyActivityIndex)
      ensures statusColor == old(statusColor)
    {
      if target == currentTarget {
        showContactForm := false;
      }
    }

    /** `sendMessage`: with every field filled, start sending; otherwise do nothing. */
    method SendMessage()
      modifies this
      ensures Complete(contactForm) ==> sending
      ensures !Complete(old(contactForm)) ==> unchanged(this)
      ensures showContactForm == old(showContactForm) && messageSent == old(messageSent)
      ensures contactForm == old(contactForm)
      ensures lanyardActivities == old(lanyardActivities) && spotifyActivityIndex == old(spotifyActivityIndex)
      ensures statusColor == old(statusColor)
    {
      if contactForm.name == "" || contactForm.email == "" || contactForm.message == "" {
        return;
      }
      sending := true;
    }

    /** The two-second timeout after sending: sent, and the form emptied. */
    method Sent()
      modifies this
      ensures !sending && messageSent && contactForm == EmptyForm
      ensures showContactForm == old(showContactForm)
      ensures lanyardActivities == old(lanyardActivities) && spotifyActivityIndex == old(spotifyActivityIndex)
      ensures statusColor == old(statusColor)
    {
      sending := false;
      messageSent := true;
      contactForm := EmptyForm;
    }

    /** The three-second timeout after that: the success note and the form both go away. */
    method SuccessShown()
      modifies this
      ensures !messageSent && !showContactForm
      ensures sending == old(sending) && contactForm == old(contactForm)
      ensures lanyardActivities == old(lanyardActivities) && spotifyActivityIndex == old(spotifyActivityIndex)
      ensures statusColor == old(statusColor)
    {
      messageSent := false;
      showContactForm := false;
    }
  }
}
