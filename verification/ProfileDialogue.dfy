/** The profile questionnaire: filling in, refilling and editing a profile, one message at a time. The
    dialogue keeps what has been answered in a free-form context; looking up a key that is not there, an
    answer of another kind, or pass details that do not fit together would each raise an exception, so
    they are preconditions here, proved at every use. */
module ProfileDialogue {
  import opened Options
  import opened PersonNames

  const PROFILE_FORMAT: string := "combined-full-name-v2-statistics-experience"
  const YES: string := "Да"
  const NO: string := "Нет"
  const SKIP: string := "Пропустить"
  const CLEAR_NICKNAME: string := "profile:nickname:clear"

  datatype State =
    | Idle | Elsewhere
    | FullNameCyrillic | NeedsPass | Foreigner | FullNameLatin | Phone | Email | Contact | Crossplay | Nickname

  datatype Flow = Initial | Reset | Editing
  datatype Field = NameField | NicknameField | ContactField | CrossplayField | PassField | PhoneField | EmailField
                 | CitizenshipField | LatinNameField | UnknownField

  datatype Key =
    | ProfileFormat | ProfileFlow | ProfileField | SignupEvent
    | SurnameCyrillic | NameCyrillic | PatronymCyrillic | ShownName
    | SurnameLatin | NameLatin | PatronymLatin
    | WantsPass | IsForeigner | MobilePhone | EmailAddress | ContactLink | PlaysCrossplay

  datatype Value = Text(text: string) | Flag(flag: bool) | Nothing | InFlow(flow: Flow) | ForField(field: Field)

  type Context = map<Key, Value>

  datatype PassDetails = PassDetails(
    surname: string, name: string, patronym: string,
    foreigner: bool,
    surnameLatin: Option<string>, nameLatin: Option<string>, patronymLatin: Option<string>,
    phone: string, email: string)

  // Latin names are there exactly for foreigners, and agree on whether there is a patronym.
  predicate ValidDetails(d: PassDetails)
  {
    if d.foreigner
    then && d.surnameLatin.Some? && d.nameLatin.Some? && d.patronymLatin.Some?
         && (d.patronym == NO_PATRONYM <==> d.patronymLatin.value == NO_PATRONYM)
    else d.surnameLatin.None? && d.nameLatin.None? && d.patronymLatin.None?
  }

  datatype Profile = Profile(
    fullName: Option<string>,
    nickname: Option<string>,
    crossplay: Option<bool>,
    needsPass: Option<bool>,
    details: Option<PassDetails>,
    contact: Option<string>)

  predicate Complete(telegram: bool, p: Profile)
  {
    && p.fullName.Some? && p.crossplay.Some? && p.needsPass.Some?
    && (p.needsPass.value ==> p.details.Some?) && (telegram ==> p.contact.Some?)
  }

  // A displayed name is a surname and a name of one word each.
  predicate Names(shown: string, surname: string, name: string)
  {
    IsWord(surname) && IsWord(name) && shown == Displayed(surname, name)
  }

  // What holds of every stored profile.
  ghost predicate ProfileInv(p: Profile)
  {
    && (p.needsPass == Some(true) <==> p.details.Some?)
    && (p.fullName.Some? ==> exists surname, name :: Names(p.fullName.value, surname, name))
    && (p.details.Some? ==>
          var d := p.details.value;
          ValidDetails(d) && p.fullName.Some? && Names(p.fullName.value, d.surname, d.name))
  }

  // A message, with what parsing its text as a name makes of it and what the library's validators do:
  // the normalised phone number, email address, contact and nickname, or nothing when they refuse it.
  datatype Message = Message(
    value: string,
    cyrillic: Option<FullName>, latin: Option<FullName>, shown: string,
    phone: Option<string>, email: Option<string>, contact: Option<string>, nickname: Option<string>)

  predicate Understood(m: Message)
  {
    m.cyrillic.Some? ==> Names(m.shown, m.cyrillic.value.surname, m.cyrillic.value.name)
  }

  function Heard(
      value: string, phone: Option<string>, email: Option<string>, contact: Option<string>, nickname: Option<string>)
    : (m: Message)
    ensures Understood(m)
  {
    var cyrillic, shown := ParseFullName(Cyrillic, value), SurnameAndName(value);
    assert cyrillic.Some? ==> Names(shown, cyrillic.value.surname, cyrillic.value.name) by {
      if cyrillic.Some? {
        ParsedName(Cyrillic, value);
      }
    }
    Message(value, cyrillic, ParseFullName(Latin, value), shown, phone, email, contact, nickname)
  }

  // ----- What the context holds -----

  predicate IsText(c: Context, k: Key) { k in c && c[k].Text? }
  predicate IsFlag(c: Context, k: Key) { k in c && c[k].Flag? }

  predicate HasNames(c: Context)
  {
    IsText(c, SurnameCyrillic) && IsText(c, NameCyrillic) && IsText(c, PatronymCyrillic)
  }

  predicate HasShownName(c: Context)
  {
    HasNames(c) && IsText(c, ShownName) && Names(c[ShownName].text, c[SurnameCyrillic].text, c[NameCyrillic].text)
  }

  predicate HasCitizenship(c: Context)
  {
    && HasNames(c) && IsFlag(c, IsForeigner)
    && (c[IsForeigner].flag ==>
          && IsText(c, SurnameLatin) && IsText(c, NameLatin) && IsText(c, PatronymLatin)
          && (c[PatronymCyrillic].text == NO_PATRONYM <==> c[PatronymLatin].text == NO_PATRONYM))
  }

  predicate HasPassData(c: Context)
  {
    HasCitizenship(c) && IsText(c, MobilePhone) && IsText(c, EmailAddress)
  }

  predicate CurrentFormat(c: Context)
  {
    ProfileFormat in c && c[ProfileFormat] == Text(PROFILE_FORMAT)
  }

  predicate InField(c: Context)
  {
    ProfileFlow in c && c[ProfileFlow] == InFlow(Editing)
  }

  predicate NeedsDetails(c: Context)
  {
    WantsPass in c && c[WantsPass] == Flag(true)
  }

  // Filling in the whole profile: what has been answered when a question is asked.
  predicate FillingInv(telegram: bool, s: State, c: Context)
  {
    match s
    case Idle => true
    case Elsewhere => true
    case FullNameCyrillic => true
    case NeedsPass => HasShownName(c)
    case Foreigner => HasShownName(c) && NeedsDetails(c)
    case FullNameLatin => HasShownName(c) && NeedsDetails(c) && IsForeigner in c && c[IsForeigner] == Flag(true)
    case Phone => HasShownName(c) && NeedsDetails(c) && HasCitizenship(c)
    case Email => HasShownName(c) && NeedsDetails(c) && HasCitizenship(c) && IsText(c, MobilePhone)
    case Contact => HasShownName(c) && IsFlag(c, WantsPass) && (c[WantsPass].flag ==> HasPassData(c))
    case Crossplay => HasShownName(c) && IsFlag(c, WantsPass) && (c[WantsPass].flag ==> HasPassData(c))
                      && ContactLink in c && (IsText(c, ContactLink) || (!telegram && c[ContactLink] == Nothing))
    case Nickname => false
  }

  predicate SameNames(c: Context, d: PassDetails)
    requires HasNames(c)
  {
    d.surname == c[SurnameCyrillic].text && d.name == c[NameCyrillic].text && d.patronym == c[PatronymCyrillic].text
  }

  // Editing one field of a complete profile.
  predicate EditingInv(telegram: bool, p: Profile, s: State, c: Context)
  {
    && Complete(telegram, p) && HasNames(c) && ProfileField in c && c[ProfileField].ForField?
    && var f := c[ProfileField].field;
    && (if f.NameField? && s.FullNameLatin? then HasShownName(c)
        else && Names(p.fullName.value, c[SurnameCyrillic].text, c[NameCyrillic].text)
             && (p.details.Some? ==> SameNames(c, p.details.value)))
    && match s
       case Idle => true
       case Elsewhere => true
       case FullNameCyrillic => f.NameField?
       case Nickname => f.NicknameField?
       case Contact => f.ContactField?
       case Crossplay => f.CrossplayField?
       case NeedsPass => f.PassField?
       case Foreigner => f.PassField? || (f.CitizenshipField? && p.details.Some?)
       case FullNameLatin =>
         || f.PassField?
         || (f.CitizenshipField? && p.details.Some?)
         || ((f.NameField? || f.LatinNameField?) && p.details.Some? && p.details.value.foreigner)
       case Phone => (f.PassField? && HasCitizenship(c)) || (f.PhoneField? && p.details.Some?)
       case Email => (f.PassField? && HasCitizenship(c) && IsText(c, MobilePhone)) || (f.EmailField? && p.details.Some?)
  }

  ghost predicate DialogueInv(telegram: bool, p: Profile, s: State, c: Context)
  {
    && ProfileInv(p)
    && (!s.Idle? && !s.Elsewhere? && CurrentFormat(c) ==>
          if InField(c) then EditingInv(telegram, p, s, c) else FillingInv(telegram, s, c))
  }

  // Building pass details raises unless they are valid.
  function Validated(d: PassDetails): (r: PassDetails)
    requires ValidDetails(d)
    ensures r == d
  {
    d
  }

  function FromContext(c: Context): PassDetails
    requires HasPassData(c)
  {
    var foreigner := c[IsForeigner].flag;
    Validated(PassDetails(
      c[SurnameCyrillic].text, c[NameCyrillic].text, c[PatronymCyrillic].text,
      foreigner,
      if foreigner then Some(c[SurnameLatin].text) else None,
      if foreigner then Some(c[NameLatin].text) else None,
      if foreigner then Some(c[PatronymLatin].text) else None,
      c[MobilePhone].text, c[EmailAddress].text))
  }

  function Dumped(o: Option<string>): Value { if o.Some? then Text(o.value) else Nothing }

  function Dump(d: PassDetails): Context
  {
    map[SurnameCyrillic := Text(d.surname), NameCyrillic := Text(d.name), PatronymCyrillic := Text(d.patronym),
        IsForeigner := Flag(d.foreigner),
        SurnameLatin := Dumped(d.surnameLatin), NameLatin := Dumped(d.nameLatin),
        PatronymLatin := Dumped(d.patronymLatin),
        MobilePhone := Text(d.phone), EmailAddress := Text(d.email)]
  }

  // The profile a filled-in questionnaire makes; the nickname is not part of it.
  function Filled(p: Profile, c: Context): Profile
    requires HasShownName(c) && IsFlag(c, WantsPass) && (c[WantsPass].flag ==> HasPassData(c))
    requires IsFlag(c, PlaysCrossplay) && ContactLink in c
  {
    Profile(
      Some(c[ShownName].text), p.nickname, Some(c[PlaysCrossplay].flag),
      Some(c[WantsPass].flag), if c[WantsPass].flag then Some(FromContext(c)) else None,
      if c[ContactLink].Text? then Some(c[ContactLink].text) else None)
  }

  lemma FilledIsValid(telegram: bool, p: Profile, c: Context)
    requires FillingInv(telegram, Crossplay, c) && IsFlag(c, PlaysCrossplay)
    ensures ProfileInv(Filled(p, c)) && Complete(telegram, Filled(p, c))
  {
    assert Names(c[ShownName].text, c[SurnameCyrillic].text, c[NameCyrillic].text);
  }

  // One value of the stored pass details apart, a profile has not changed.
  ghost predicate EditsDetails(p: Profile, q: Profile, edited: PassDetails)
  {
    p.details.Some? && q.details.Some? && q == p.(details := Some(edited))
  }

  function SameLatin(d: PassDetails, from: PassDetails): PassDetails
  {
    d.(surnameLatin := from.surnameLatin, nameLatin := from.nameLatin, patronymLatin := from.patronymLatin)
  }

  // What editing one field may change.
  ghost predicate EditsOnly(f: Field, p: Profile, q: Profile)
  {
    match f
    case NicknameField => q == p.(nickname := q.nickname)
    case ContactField => q == p.(contact := q.contact)
    case CrossplayField => q == p.(crossplay := q.crossplay)
    case PassField => q == p.(needsPass := q.needsPass, details := q.details)
    case NameField =>
      && q == p.(fullName := q.fullName, details := q.details) && (q.details.Some? <==> p.details.Some?)
      && (p.details.Some? ==>
            var d, e := p.details.value, q.details.value;
            e == SameLatin(d.(surname := e.surname, name := e.name, patronym := e.patronym), e))
    case PhoneField => q.details.Some? && p.details.Some? &&
      EditsDetails(p, q, p.details.value.(phone := q.details.value.phone))
    case EmailField => q.details.Some? && p.details.Some? &&
      EditsDetails(p, q, p.details.value.(email := q.details.value.email))
    case CitizenshipField => q.details.Some? && p.details.Some? &&
      EditsDetails(p, q, SameLatin(p.details.value.(foreigner := q.details.value.foreigner), q.details.value))
    case LatinNameField => q.details.Some? && p.details.Some? &&
      EditsDetails(p, q, SameLatin(p.details.value, q.details.value))
    case UnknownField => q == p
  }

  function WithNames(c: Context, name: FullName): Context
  {
    c[SurnameCyrillic := Text(name.surname)][NameCyrillic := Text(name.name)][PatronymCyrillic := Text(name.patronym)]
  }

  function WithLatinNames(c: Context, latin: FullName): Context
  {
    c[SurnameLatin := Text(latin.surname)][NameLatin := Text(latin.name)][PatronymLatin := Text(latin.patronym)]
  }

  // Pass details under another name.
  function Renamed(d: PassDetails, name: FullName): PassDetails
  {
    d.(surname := name.surname, name := name.name, patronym := name.patronym)
  }

  // Only one of the two has a patronym.
  predicate DashDiffers(d: PassDetails, name: FullName)
  {
    (d.patronym == NO_PATRONYM) != (name.patronym == NO_PATRONYM)
  }

  // Pass details of somebody who is not a foreigner.
  function Citizen(d: PassDetails): PassDetails
  {
    d.(foreigner := false, surnameLatin := None, nameLatin := None, patronymLatin := None)
  }

  function WithLatin(c: Context, latin: FullName): Context
  {
    WithLatinNames(c, latin)[IsForeigner := Flag(true)]
  }

  lemma LatinKeepsInv(telegram: bool, p: Profile, c: Context, latin: FullName)
    requires CurrentFormat(c) && InField(c) && EditingInv(telegram, p, FullNameLatin, c)
    requires c[PatronymCyrillic].text == NO_PATRONYM <==> latin.patronym == NO_PATRONYM
    ensures var d := WithLatin(c, latin);
            && CurrentFormat(d) && InField(d) && EditingInv(telegram, p, FullNameLatin, d)
            && d[ProfileField] == c[ProfileField] && d[PatronymCyrillic] == c[PatronymCyrillic]
            && (c[ProfileField].field.PassField? ==> EditingInv(telegram, p, Phone, d))
  {
  }

  predicate HasLatinName(p: Profile, latin: FullName)
  {
    && p.details.Some? && p.details.value.surnameLatin == Some(latin.surname)
    && p.details.value.nameLatin == Some(latin.name) && p.details.value.patronymLatin == Some(latin.patronym)
  }

  predicate Left(before: Context, s: State, c: Context)
  {
    (s.Idle? && c == map[]) || (s.Elsewhere? && SignupEvent in before)
  }

  // What a message asks for when no dialogue is open. `away` is where another dialogue leaves the user.
  datatype Command = ShowProfile | EditMenu | Refill | EditField(field: Field) | Otherwise(away: Option<Context>)

  datatype Update =
    | Start(signup: Option<string>, away: Option<Context>)
    | Unsupported
    | StaleButton
    | Menu
    | CancelDialog
    | Management(away: Option<Context>)
    | Say(message: Message, command: Command, published: bool, away: Option<Context>)

  // What one message may do to the profile.
  ghost predicate Changes(telegram: bool, p: Profile, s: State, c: Context, u: Update, q: Profile)
  {
    q != p ==>
      && u.Say? && !s.Idle? && !s.Elsewhere? && CurrentFormat(c) && Complete(telegram, q)
      && if InField(c) then ProfileField in c && c[ProfileField].ForField? && EditsOnly(c[ProfileField].field, p, q)
         else s.Crossplay? && (u.message.value == YES || u.message.value == NO)
  }

  /** One user's profile and dialogue, as stored. `published` says whether the durable command that
      follows a finished edit could be queued; if not, the request fails and its profile is saved with
      the dialogue still open, so that the same message can be sent again. */
  class Dialogue {
    const telegram: bool
    var profile: Profile
    var state: State
    var context: Context

    ghost predicate Valid()
      reads this
    {
      DialogueInv(telegram, profile, state, context)
    }

    constructor (telegram: bool)
      ensures Valid() && this.telegram == telegram && state == Idle
      ensures profile == Profile(None, None, None, None, None, None)
    {
      this.telegram := telegram;
      profile := Profile(None, None, None, None, None, None);
      state := Idle;
      context := map[];
    }

    method Clear()
      modifies this`state, this`context
      ensures state == Idle && context == map[]
    {
      state := Idle;
      context := map[];
    }

    // Assigning to a user checks that pass details never contradict the answer.
    method SetNeedsPass(needed: bool)
      requires !needed ==> profile.details.None?
      modifies this`profile
      ensures profile == old(profile).(needsPass := Some(needed))
    {
      profile := profile.(needsPass := Some(needed));
    }

    method SetDetails(details: Option<PassDetails>)
      requires details.Some? ==> profile.needsPass != Some(false)
      modifies this`profile
      ensures profile == old(profile).(details := details)
    {
      profile := profile.(details := details);
    }

    method BeginProfile(editing: bool, signup: Option<string>)
      requires Valid()
      modifies this`state, this`context
      ensures Valid() && state == FullNameCyrillic && CurrentFormat(context) && !InField(context)
      ensures context.Keys == {ProfileFormat, ProfileFlow} + if signup.Some? then {SignupEvent} else {}
      ensures context[ProfileFlow] == InFlow(if editing then Reset else Initial)
      ensures signup.Some? ==> context[SignupEvent] == Text(signup.value)
    {
      state := FullNameCyrillic;
      var flow := if editing then Reset else Initial;
      context := map[ProfileFormat := Text(PROFILE_FORMAT), ProfileFlow := InFlow(flow)];
      if signup.Some? {
        context := context[SignupEvent := Text(signup.value)];
      }
    }

    method ContactPrompt()
      modifies this`state
      ensures state == Contact
    {
      state := Contact;
    }

    // The context of an edit starts with the stored names and pass details.
    method StartingContext(f: Field) returns (c: Context)
      requires Valid() && Complete(telegram, profile)
      ensures CurrentFormat(c) && InField(c) && ProfileField in c && c[ProfileField] == ForField(f)
      ensures HasNames(c) && Names(profile.fullName.value, c[SurnameCyrillic].text, c[NameCyrillic].text)
      ensures profile.details.Some? ==> SameNames(c, profile.details.value)
    {
      c := map[ProfileFormat := Text(PROFILE_FORMAT), ProfileFlow := InFlow(Editing), ProfileField := ForField(f)];
      var details := profile.details;
      if details.Some? {
        c := c + Dump(details.value);
      } else if profile.fullName.Some? {
        var words := Words(profile.fullName.value);
        ghost var surname, name :| Names(profile.fullName.value, surname, name);
        TwoWords(surname, name);
        c := WithNames(c, FullName(words[0], words[1], NO_PATRONYM));
      }
    }

    // The question that opens the edit of a field; none where there are no pass details to edit, or no
    // Latin name.
    function Opening(f: Field): State
      reads this`profile
    {
      var details := profile.details;
      match f
      case NameField => FullNameCyrillic
      case NicknameField => Nickname
      case ContactField => Contact
      case CrossplayField => Crossplay
      case PassField => NeedsPass
      case PhoneField => if details.Some? then Phone else Idle
      case EmailField => if details.Some? then Email else Idle
      case CitizenshipField => if details.Some? then Foreigner else Idle
      case LatinNameField => if details.Some? && details.value.foreigner then FullNameLatin else Idle
      case UnknownField => Idle
    }

    method BeginField(f: Field)
      requires Valid() && Complete(telegram, profile) && state == Idle
      modifies this`state, this`context
      ensures Valid() && state == Opening(f)
      ensures CurrentFormat(context) && InField(context)
      ensures ProfileField in context && context[ProfileField] == ForField(f)
    {
      context := StartingContext(f);
      var details := profile.details;
      if f.NameField? {
        state := FullNameCyrillic;
      } else if f.NicknameField? {
        state := Nickname;
      } else if f.ContactField? {
        ContactPrompt();
      } else if f.CrossplayField? {
        state := Crossplay;
      } else if f.PassField? {
        state := NeedsPass;
      } else if details.None? {
        return;
      } else if f.PhoneField? {
        state := Phone;
      } else if f.EmailField? {
        state := Email;
      } else if f.CitizenshipField? {
        state := Foreigner;
      } else if f.LatinNameField? && details.value.foreigner {
        state := FullNameLatin;
      }
    }

    // ----- Filling in -----

    method AnswerName(m: Message)
      requires Understood(m) && Valid() && CurrentFormat(context) && !InField(context) && state == FullNameCyrillic
      modifies this`state, this`context
      ensures Valid()
      ensures var parsed := m.cyrillic;
              if parsed.None? then state == old(state) && context == old(context)
              else state == NeedsPass && context == WithNames(old(context), parsed.value)[ShownName := Text(m.shown)]
    {
      var parsed := m.cyrillic;
      if parsed.None? {
        return;
      }
      context := WithNames(context, parsed.value);
      context := context[ShownName := Text(m.shown)];
      state := NeedsPass;
    }

    method AnswerNeedsPass(m: Message)
      requires Valid() && CurrentFormat(context) && !InField(context) && state == NeedsPass
      modifies this`state, this`context
      ensures Valid()
      ensures if m.value != YES && m.value != NO then state == old(state) && context == old(context)
              else && context == old(context)[WantsPass := Flag(m.value == YES)]
                   && state == if m.value == YES then Foreigner else Contact
    {
      if m.value != YES && m.value != NO {
        return;
      }
      context := context[WantsPass := Flag(m.value == YES)];
      if m.value == YES {
        state := Foreigner;
        return;
      }
      ContactPrompt();
    }

    method AnswerForeigner(m: Message)
      requires Valid() && CurrentFormat(context) && !InField(context) && state == Foreigner
      modifies this`state, this`context
      ensures Valid()
      ensures if m.value != YES && m.value != NO then state == old(state) && context == old(context)
              else && context == old(context)[IsForeigner := Flag(m.value == NO)]
                   && state == if m.value == NO then FullNameLatin else Phone
    {
      if m.value != YES && m.value != NO {
        return;
      }
      context := context[IsForeigner := Flag(m.value == NO)];
      if context[IsForeigner].flag {
        state := FullNameLatin;
        return;
      }
      state := Phone;
    }

    method AnswerLatinName(m: Message)
      requires Valid() && CurrentFormat(context) && !InField(context) && state == FullNameLatin
      modifies this`state, this`context
      ensures Valid()
      ensures var parsed := m.latin;
              var dash := old(context)[PatronymCyrillic].text == NO_PATRONYM;
              if parsed.None? || dash != (parsed.value.patronym == NO_PATRONYM)
              then state == old(state) && context == old(context)
              else state == Phone && context == WithLatinNames(old(context), parsed.value)
    {
      var parsed := m.latin;
      if parsed.None? {
        return;
      }
      if (context[PatronymCyrillic].text == NO_PATRONYM) != (parsed.value.patronym == NO_PATRONYM) {
        return;
      }
      context := WithLatinNames(context, parsed.value);
      state := Phone;
    }

    method AnswerPhone(m: Message)
      requires Valid() && CurrentFormat(context) && !InField(context) && state == Phone
      modifies this`state, this`context
      ensures Valid()
      ensures if m.phone.None? then state == old(state) && context == old(context)
              else state == Email && context == old(context)[MobilePhone := Text(m.phone.value)]
    {
      if m.phone.None? {
        return;
      }
      context := context[MobilePhone := Text(m.phone.value)];
      state := Email;
    }

    method AnswerEmail(m: Message)
      requires Valid() && CurrentFormat(context) && !InField(context) && state == Email
      modifies this`state, this`context
      ensures Valid()
      ensures if m.email.None? then state == old(state) && context == old(context)
              else state == Contact && context == old(context)[EmailAddress := Text(m.email.value)]
    {
      if m.email.None? {
        return;
      }
      context := context[EmailAddress := Text(m.email.value)];
      ContactPrompt();
    }

    method AnswerContact(m: Message)
      requires Valid() && CurrentFormat(context) && !InField(context) && state == Contact
      modifies this`state, this`context
      ensures Valid()
      ensures if !telegram && m.value == SKIP then state == Crossplay && context == old(context)[ContactLink := Nothing]
              else if m.contact.None? then state == old(state) && context == old(context)
              else state == Crossplay && context == old(context)[ContactLink := Text(m.contact.value)]
    {
      if telegram {
        if m.contact.None? {
          return;
        }
        context := context[ContactLink := Text(m.contact.value)];
      } else if m.value == SKIP {
        context := context[ContactLink := Nothing];
      } else {
        if m.contact.None? {
          return;
        }
        context := context[ContactLink := Text(m.contact.value)];
      }
      state := Crossplay;
    }

    method AnswerCrossplay(m: Message, published: bool, away: Option<Context>)
      requires Valid() && CurrentFormat(context) && !InField(context) && state == Crossplay
      modifies this
      ensures Valid()
      ensures if m.value != YES && m.value != NO
              then state == old(state) && context == old(context) && profile == old(profile)
              else
                var answered := old(context)[PlaysCrossplay := Flag(m.value == YES)];
                && profile == Filled(old(profile), answered) && Complete(telegram, profile)
                && (if published then Left(old(context), state, context)
                    else state == old(state) && context == answered)
    {
      if m.value != YES && m.value != NO {
        return;
      }
      context := context[PlaysCrossplay := Flag(m.value == YES)];
      Finish(published, away);
    }

    // A finished questionnaire ends the dialogue, or goes on with the signup it was asked for.
    method Finish(published: bool, away: Option<Context>)
      requires Valid() && CurrentFormat(context) && !InField(context)
      requires state == Crossplay && IsFlag(context, PlaysCrossplay)
      modifies this
      ensures Valid() && profile == Filled(old(profile), old(context)) && Complete(telegram, profile)
      ensures if published then Left(old(context), state, context) else state == old(state) && context == old(context)
    {
      FilledIsValid(telegram, profile, context);
      profile := profile.(fullName := Some(context[ShownName].text));
      profile := profile.(crossplay := Some(context[PlaysCrossplay].flag));
      if context[WantsPass].flag {
        SetNeedsPass(true);
        SetDetails(Some(FromContext(context)));
      } else {
        SetDetails(None);
        SetNeedsPass(false);
      }
      if telegram {
        profile := profile.(contact := Some(context[ContactLink].text));
      } else {
        var contact := if ContactLink in context then context[ContactLink] else Nothing;
        profile := profile.(contact := if contact.Nothing? then None else Some(contact.text));
      }
      var resetting := ProfileFlow in context && context[ProfileFlow] == InFlow(Reset);
      var signup := IsText(context, SignupEvent);
      if published {
        Clear();
        if !resetting && signup && away.Some? {
          state, context := Elsewhere, away.value;
        }
      }
    }

    method FillingStep(m: Message, published: bool, away: Option<Context>)
      requires Understood(m) && Valid() && CurrentFormat(context) && !InField(context)
      requires state != Idle && state != Elsewhere
      modifies this
      ensures Valid()
      ensures old(state) != Crossplay || (m.value != YES && m.value != NO) ==> profile == old(profile)
      ensures profile != old(profile) ==> Complete(telegram, profile)
    {
      match state {
        case FullNameCyrillic => AnswerName(m);
        case NeedsPass => AnswerNeedsPass(m);
        case Contact => AnswerContact(m);
        case Crossplay => AnswerCrossplay(m, published, away);
        case Foreigner => AnswerForeigner(m);
        case FullNameLatin => AnswerLatinName(m);
        case Phone => AnswerPhone(m);
        case Email => AnswerEmail(m);
        case _ => assert false;
      }
    }

    // ----- Editing -----

    method CompleteEdit(published: bool)
      modifies this`state, this`context
      ensures if published then state == Idle && context == map[] else state == old(state) && context == old(context)
    {
      if published {
        Clear();
      }
    }

    method EditName(m: Message, published: bool)
      requires Understood(m) && Valid() && CurrentFormat(context) && InField(context) && state == FullNameCyrillic
      modifies this
      ensures Valid() && Complete(telegram, profile) && EditsOnly(NameField, old(profile), profile)
      ensures var d := old(profile).details;
              if m.cyrillic.None? then profile == old(profile) && state == old(state)
              else if d.Some? && d.value.foreigner && DashDiffers(d.value, m.cyrillic.value)
              then profile == old(profile) && state == FullNameLatin
              else
                && profile.fullName == Some(m.shown)
                && profile.details == if d.None? then None else Some(Renamed(d.value, m.cyrillic.value))
    {
      var parsed := m.cyrillic;
      if parsed.None? {
        return;
      }
      var name := parsed.value;
      context := WithNames(context, name);
      context := context[ShownName := Text(m.shown)];
      var details := profile.details;
      if details.Some? && details.value.foreigner && DashDiffers(details.value, name) {
        state := FullNameLatin;
        return;
      }
      if details.Some? {
        SetDetails(Some(Validated(Renamed(details.value, name))));
      }
      profile := profile.(fullName := Some(m.shown));
      CompleteEdit(published);
    }

    method EditNickname(m: Message, published: bool)
      requires Valid() && CurrentFormat(context) && InField(context) && state == Nickname
      modifies this
      ensures Valid() && Complete(telegram, profile)
      ensures profile == if m.value == CLEAR_NICKNAME then old(profile).(nickname := None)
                         else if m.nickname.None? then old(profile)
                         else old(profile).(nickname := m.nickname)
    {
      if m.value == CLEAR_NICKNAME {
        profile := profile.(nickname := None);
      } else {
        if m.nickname.None? {
          return;
        }
        profile := profile.(nickname := m.nickname);
      }
      CompleteEdit(published);
    }

    method EditContact(m: Message, published: bool)
      requires Valid() && CurrentFormat(context) && InField(context) && state == Contact
      modifies this
      ensures Valid() && Complete(telegram, profile)
      ensures profile == if !telegram && m.value == SKIP then old(profile).(contact := None)
                         else if m.contact.None? then old(profile)
                         else old(profile).(contact := m.contact)
    {
      if telegram {
        if m.contact.None? {
          return;
        }
        profile := profile.(contact := m.contact);
      } else if m.value == SKIP {
        profile := profile.(contact := None);
      } else {
        if m.contact.None? {
          return;
        }
        profile := profile.(contact := m.contact);
      }
      CompleteEdit(published);
    }

    method EditCrossplay(m: Message, published: bool)
      requires Valid() && CurrentFormat(context) && InField(context) && state == Crossplay
      modifies this
      ensures Valid() && Complete(telegram, profile)
      ensures profile == if m.value != YES && m.value != NO then old(profile)
                         else old(profile).(crossplay := Some(m.value == YES))
    {
      if m.value != YES && m.value != NO {
        return;
      }
      profile := profile.(crossplay := Some(m.value == YES));
      CompleteEdit(published);
    }

    method EditNeedsPass(m: Message, published: bool)
      requires Valid() && CurrentFormat(context) && InField(context) && state == NeedsPass
      modifies this
      ensures Valid() && Complete(telegram, profile)
      ensures profile == if m.value == NO then old(profile).(needsPass := Some(false), details := None)
                         else old(profile)
    {
      if m.value != YES && m.value != NO {
        return;
      }
      if m.value == NO {
        SetDetails(None);
        SetNeedsPass(false);
        CompleteEdit(published);
        return;
      }
      if profile.needsPass == Some(true) && profile.details.Some? {
        CompleteEdit(published);
        return;
      }
      state := Foreigner;
    }

    method EditForeigner(m: Message, published: bool)
      requires Valid() && CurrentFormat(context) && InField(context) && state == Foreigner
      modifies this
      ensures Valid() && Complete(telegram, profile)
      ensures EditsOnly(old(context)[ProfileField].field, old(profile), profile)
      ensures var d := old(profile).details; var foreign := m.value == NO;
              if (m.value != YES && m.value != NO) || old(context)[ProfileField].field.PassField?
                 || (foreign && !d.value.foreigner)
              then profile == old(profile)
              else profile.details == Some(if foreign then d.value else Citizen(d.value))
    {
      if m.value != YES && m.value != NO {
        return;
      }
      var foreign := m.value == NO;
      context := context[IsForeigner := Flag(foreign)];
      if context[ProfileField].field.PassField? {
        state := if foreign then FullNameLatin else Phone;
        return;
      }
      var details := profile.details.value;
      if foreign && !details.foreigner {
        state := FullNameLatin;
        return;
      }
      SetDetails(Some(Validated(details.(
        foreigner := foreign,
        surnameLatin := if foreign then details.surnameLatin else None,
        nameLatin := if foreign then details.nameLatin else None,
        patronymLatin := if foreign then details.patronymLatin else None))));
      CompleteEdit(published);
    }

    method EditLatinName(m: Message, published: bool)
      requires Valid() && CurrentFormat(context) && InField(context) && state == FullNameLatin
      modifies this
      ensures Valid() && Complete(telegram, profile)
      ensures EditsOnly(old(context)[ProfileField].field, old(profile), profile)
      ensures profile != old(profile) ==> m.latin.Some? && HasLatinName(profile, m.latin.value)
    {
      var parsed := m.latin;
      if parsed.None? {
        return;
      }
      var latin := parsed.value;
      if (context[PatronymCyrillic].text == NO_PATRONYM) != (latin.patronym == NO_PATRONYM) {
        return;
      }
      LatinKeepsInv(telegram, profile, context, latin);
      context := WithLatin(context, latin);
      if context[ProfileField].field.PassField? {
        state := Phone;
        return;
      }
      StoreLatinName(latin, published);
    }

    method StoreLatinName(latin: FullName, published: bool)
      requires CurrentFormat(context) && InField(context) && state == FullNameLatin && ProfileInv(profile)
      requires EditingInv(telegram, profile, state, context) && !context[ProfileField].field.PassField?
      requires context[PatronymCyrillic].text == NO_PATRONYM <==> latin.patronym == NO_PATRONYM
      modifies this
      ensures Valid() && Complete(telegram, profile)
      ensures EditsOnly(old(context)[ProfileField].field, old(profile), profile)
      ensures HasLatinName(profile, latin)
    {
      var details := profile.details.value;
      SetDetails(Some(Validated(details.(
        surname := context[SurnameCyrillic].text,
        name := context[NameCyrillic].text,
        patronym := context[PatronymCyrillic].text,
        foreigner := true,
        surnameLatin := Some(latin.surname), nameLatin := Some(latin.name), patronymLatin := Some(latin.patronym)))));
      if context[ProfileField].field.NameField? {
        profile := profile.(fullName := Some(context[ShownName].text));
      }
      CompleteEdit(published);
    }

    method EditPhone(m: Message, published: bool)
      requires Valid() && CurrentFormat(context) && InField(context) && state == Phone
      modifies this
      ensures Valid() && Complete(telegram, profile)
      ensures profile == if m.phone.None? || old(context)[ProfileField].field.PassField? then old(profile)
                         else old(profile).(details := Some(old(profile).details.value.(phone := m.phone.value)))
    {
      if m.phone.None? {
        return;
      }
      context := context[MobilePhone := Text(m.phone.value)];
      if context[ProfileField].field.PassField? {
        state := Email;
        return;
      }
      SetDetails(Some(Validated(profile.details.value.(phone := m.phone.value))));
      CompleteEdit(published);
    }

    method EditEmail(m: Message, published: bool)
      requires Valid() && CurrentFormat(context) && InField(context) && state == Email
      modifies this
      ensures Valid() && Complete(telegram, profile)
      ensures m.email.None? ==> profile == old(profile)
      ensures m.email.Some? ==>
                var details :=
                  if old(context)[ProfileField].field.PassField?
                  then FromContext(old(context)[EmailAddress := Text(m.email.value)])
                  else old(profile).details.value.(email := m.email.value);
                profile == old(profile).(needsPass := Some(true), details := Some(details))
    {
      if m.email.None? {
        return;
      }
      context := context[EmailAddress := Text(m.email.value)];
      if context[ProfileField].field.PassField? {
        SetNeedsPass(true);
        SetDetails(Some(FromContext(context)));
      } else {
        SetDetails(Some(Validated(profile.details.value.(email := m.email.value))));
      }
      CompleteEdit(published);
    }

    // The questions about pass details.
    method EditingPassStep(m: Message, published: bool)
      requires Valid() && CurrentFormat(context) && InField(context)
      requires state.NeedsPass? || state.Foreigner? || state.FullNameLatin? || state.Phone? || state.Email?
      modifies this
      ensures Valid() && Complete(telegram, profile)
      ensures EditsOnly(old(context)[ProfileField].field, old(profile), profile)
    {
      match state {
        case NeedsPass => EditNeedsPass(m, published);
        case Foreigner => EditForeigner(m, published);
        case FullNameLatin => EditLatinName(m, published);
        case Phone => EditPhone(m, published);
        case Email => EditEmail(m, published);
      }
    }

    method EditingStep(m: Message, published: bool)
      requires Understood(m) && Valid() && CurrentFormat(context) && InField(context)
      requires state != Idle && state != Elsewhere
      modifies this
      ensures Valid() && Complete(telegram, profile)
      ensures EditsOnly(old(context)[ProfileField].field, old(profile), profile)
    {
      match state {
        case Nickname => EditNickname(m, published);
        case FullNameCyrillic => EditName(m, published);
        case Contact => EditContact(m, published);
        case Crossplay => EditCrossplay(m, published);
        case Idle => assert false;
        case Elsewhere => assert false;
        case _ => EditingPassStep(m, published);
      }
    }

    method ProfileStep(m: Message, published: bool, away: Option<Context>)
      requires Understood(m) && Valid() && state != Idle && state != Elsewhere
      modifies this
      ensures Valid()
      ensures Changes(telegram, old(profile), old(state), old(context), Say(m, ShowProfile, published, away), profile)
    {
      if !CurrentFormat(context) {
        BeginProfile(false, None);
      } else if InField(context) {
        EditingStep(m, published);
      } else {
        FillingStep(m, published, away);
      }
    }

    method GoAway(away: Option<Context>)
      requires Valid()
      modifies this`state, this`context
      ensures Valid() && (state == Idle || state == Elsewhere)
    {
      if away.Some? {
        state, context := Elsewhere, away.value;
      } else {
        Clear();
      }
    }

    method Idling(command: Command)
      requires Valid() && state == Idle
      modifies this`state, this`context
      ensures Valid()
    {
      match command {
        case ShowProfile =>
          if !Complete(telegram, profile) {
            BeginProfile(false, None);
          }
        case EditMenu =>
          if !Complete(telegram, profile) {
            BeginProfile(false, None);
          }
        case Refill => BeginProfile(Complete(telegram, profile), None);
        case EditField(f) =>
          if !Complete(telegram, profile) {
            BeginProfile(false, None);
          } else {
            BeginField(f);
          }
        case Otherwise(away) =>
          if away.Some? {
            GoAway(away);
          }
      }
    }

    /** Any message at any time: no lookup fails and no assertion or validator trips, whatever has been
        sent before; the stored profile stays valid, and only finishing the questionnaire or an edit
        changes it. Leaving or cancelling drops what was answered. */
    method Handle(u: Update)
      requires Valid() && (u.Say? ==> Understood(u.message))
      modifies this
      ensures Valid()
      ensures Changes(telegram, old(profile), old(state), old(context), u, profile)
      ensures u.Unsupported? || u.StaleButton? ==> state == old(state) && context == old(context)
      ensures u.Menu? || u.CancelDialog? ==> state == Idle && context == map[]
    {
      match u {
        case Start(signup, away) =>
          Clear();
          if !Complete(telegram, profile) {
            BeginProfile(false, signup);
          } else if signup.Some? {
            GoAway(away);
          }
        case Unsupported =>
        case StaleButton =>
        case Menu => Clear();
        case CancelDialog => Clear();
        case Management(away) =>
          Clear();
          GoAway(away);
        case Say(m, command, published, away) =>
          if state == Idle {
            Idling(command);
          } else if state == Elsewhere {
            GoAway(away);
          } else {
            ProfileStep(m, published, away);
          }
      }
    }
  }

  // The pass data of a questionnaire.
  datatype PassAnswers = PassAnswers(latin: Option<Message>, phone: Message, email: Message)

  function Reply(value: string): Message
  {
    Message(value, None, None, "", None, None, None, None)
  }

  function Typed(name: FullName, pass: PassAnswers): PassDetails
    requires pass.phone.phone.Some? && pass.email.email.Some? && (pass.latin.Some? ==> pass.latin.value.latin.Some?)
  {
    var latin := if pass.latin.Some? then pass.latin.value.latin else None;
    PassDetails(
      name.surname, name.name, name.patronym, latin.Some?,
      if latin.Some? then Some(latin.value.surname) else None,
      if latin.Some? then Some(latin.value.name) else None,
      if latin.Some? then Some(latin.value.patronym) else None,
      pass.phone.phone.value, pass.email.email.value)
  }

  predicate Acceptable(name: FullName, pass: PassAnswers)
  {
    && pass.phone.phone.Some? && pass.email.email.Some?
    && (pass.latin.Some? ==>
          && pass.latin.value.latin.Some?
          && (pass.latin.value.latin.value.patronym == NO_PATRONYM <==> name.patronym == NO_PATRONYM))
  }

  predicate Answered(c: Context, name: Message)
    requires name.cyrillic.Some?
  {
    && HasShownName(c) && c[ShownName].text == name.shown
    && c[SurnameCyrillic].text == name.cyrillic.value.surname
    && c[NameCyrillic].text == name.cyrillic.value.name
    && c[PatronymCyrillic].text == name.cyrillic.value.patronym
    && CurrentFormat(c) && !InField(c) && IsFlag(c, WantsPass)
  }

  method FillInCitizenship(d: Dialogue, name: Message, pass: PassAnswers)
    requires d.Valid() && d.state == Foreigner && name.cyrillic.Some? && Acceptable(name.cyrillic.value, pass)
    requires Answered(d.context, name)
    modifies d`state, d`context
    ensures d.Valid() && d.state == Phone && Answered(d.context, name)
    ensures d.context[WantsPass] == old(d.context)[WantsPass]
    ensures HasCitizenship(d.context) && d.context[IsForeigner].flag == pass.latin.Some?
    ensures pass.latin.Some? ==>
              var latin := pass.latin.value.latin.value;
              && d.context[SurnameLatin] == Text(latin.surname) && d.context[NameLatin] == Text(latin.name)
              && d.context[PatronymLatin] == Text(latin.patronym)
  {
    d.AnswerForeigner(Reply(if pass.latin.Some? then NO else YES));
    if pass.latin.Some? {
      d.AnswerLatinName(pass.latin.value);
    }
  }

  method FillInPass(d: Dialogue, name: Message, pass: PassAnswers)
    requires d.Valid() && d.state == Foreigner && name.cyrillic.Some? && Acceptable(name.cyrillic.value, pass)
    requires Answered(d.context, name)
    modifies d`state, d`context
    ensures d.Valid() && d.state == Contact && Answered(d.context, name)
    ensures d.context[WantsPass] == old(d.context)[WantsPass]
    ensures HasPassData(d.context) && FromContext(d.context) == Typed(name.cyrillic.value, pass)
  {
    FillInCitizenship(d, name, pass);
    d.AnswerPhone(pass.phone);
    d.AnswerEmail(pass.email);
  }

  method FillInEnd(d: Dialogue, contact: Message, crossplay: bool)
    requires d.Valid() && d.state == Contact && CurrentFormat(d.context) && !InField(d.context)
    requires contact.contact.Some? && (d.telegram || contact.value != SKIP)
    modifies d
    ensures d.profile == Profile(
              Some(old(d.context)[ShownName].text), old(d.profile).nickname, Some(crossplay),
              Some(old(d.context)[WantsPass].flag),
              if old(d.context)[WantsPass].flag then Some(FromContext(old(d.context))) else None, contact.contact)
  {
    d.AnswerContact(contact);
    d.AnswerCrossplay(Reply(if crossplay then YES else NO), true, None);
  }

  /** Answering every question in turn stores exactly what was typed, each answer in its own place. */
  method FillIn(d: Dialogue, name: Message, pass: Option<PassAnswers>, contact: Message, crossplay: bool)
    requires d.Valid() && d.state == FullNameCyrillic && CurrentFormat(d.context) && !InField(d.context)
    requires Understood(name) && name.cyrillic.Some? && contact.contact.Some? && (d.telegram || contact.value != SKIP)
    requires pass.Some? ==> Acceptable(name.cyrillic.value, pass.value)
    modifies d
    ensures d.profile == Profile(
              Some(name.shown), old(d.profile).nickname, Some(crossplay), Some(pass.Some?),
              if pass.Some? then Some(Typed(name.cyrillic.value, pass.value)) else None, contact.contact)
  {
    d.AnswerName(name);
    d.AnswerNeedsPass(Reply(if pass.Some? then YES else NO));
    assert Answered(d.context, name);
    if pass.Some? {
      FillInPass(d, name, pass.value);
    }
    FillInEnd(d, contact, crossplay);
  }
}
