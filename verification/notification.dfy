/** The notification queue (`app/components/Notification.tsx`): showing and hiding
    toasts, their styles, and the hook that reaches the provider. */
module Notification {
  import opened Options

  /** A toast. The id is `Date.now() + Math.random()`: clock and randomness are
      parameters of `Show`. The kind is the string passed in. */
  datatype Toast = Toast(message: string, kind: string, id: real, duration: int)

  type Queue = seq<Toast>

  const DefaultDuration := 4000

  /** A scheduled removal: hide `id` after `delay` milliseconds. */
  datatype Timer = Timer(id: real, delay: int)

  /** `showNotification`: append the toast at the end and schedule its removal after
      its duration (4000 ms unless given). */
  function Show(q: Queue, message: string, kind: string, id: real, duration: Option<int>): (r: (Queue, Timer))
    ensures |r.0| == |q| + 1 && r.0[..|q|] == q
    ensures r.0[|q|] == Toast(message, kind, id, duration.GetOr(DefaultDuration))
    ensures r.1 == Timer(id, r.0[|q|].duration)
    ensures duration.None? ==> r.0[|q|].duration == 4000
  {
    var t := Toast(message, kind, id, duration.GetOr(DefaultDuration));
    (q + [t], Timer(id, t.duration))
  }

  /** `hideNotification`: keep the toasts whose id differs, in order. */
  function Hide(q: Queue, id: real): (r: Queue)
    ensures |r| <= |q|
    ensures forall i :: 0 <= i < |r| ==> r[i].id != id
  {
    if |q| == 0 then []
    else
      assert q == q[..|q| - 1] + [q[|q| - 1]];
      if q[|q| - 1].id == id then Hide(q[..|q| - 1], id)
      else Hide(q[..|q| - 1], id) + [q[|q| - 1]]
  }

  /** Hiding removes exactly the toasts with that id: every other toast keeps its
      number of occurrences. */
  lemma {:induction false} HideRemovesOnlyThatId(q: Queue, id: real)
    ensures forall t: Toast :: t.id != id ==> multiset(Hide(q, id))[t] == multiset(q)[t]
    ensures forall t: Toast :: t in Hide(q, id) <==> t in q && t.id != id
  {
    if |q| > 0 {
      var front := q[..|q| - 1];
      HideRemovesOnlyThatId(front, id);
      assert q == front + [q[|q| - 1]];
    }
  }

  /** Hiding works entry by entry: the survivors of a front part stay in front of the
      survivors of the rest, which is to say the order is kept. */
  lemma {:induction false} HideKeepsOrder(a: Queue, b: Queue, id: real)
    ensures Hide(a + b, id) == Hide(a, id) + Hide(b, id)
    decreases |b|
  {
    if |b| == 0 {
      assert a + b == a;
    } else {
      var ab := a + b;
      var front := b[..|b| - 1];
      var last := b[|b| - 1];
      assert ab[..|ab| - 1] == a + front;
      assert ab[|ab| - 1] == last;
      HideKeepsOrder(a, front, id);
      if last.id == id {
        assert Hide(ab, id) == Hide(a + front, id);
        assert Hide(b, id) == Hide(front, id);
      } else {
        assert Hide(ab, id) == Hide(a + front, id) + [last];
        assert Hide(b, id) == Hide(front, id) + [last];
      }
    }
  }

  /** An id not in the queue changes nothing. */
  lemma {:induction false} HideAbsentId(q: Queue, id: real)
    requires forall i :: 0 <= i < |q| ==> q[i].id != id
    ensures Hide(q, id) == q
  {
    if |q| > 0 {
      HideAbsentId(q[..|q| - 1], id);
      assert q[..|q| - 1] + [q[|q| - 1]] == q;
    }
  }

  /** Hiding twice is hiding once. */
  lemma HideIdempotent(q: Queue, id: real)
    ensures Hide(Hide(q, id), id) == Hide(q, id)
  {
    HideAbsentId(Hide(q, id), id);
  }

  /** When a fresh id's timer fires, the queue is as it was before the toast appeared. */
  lemma ExpiryUndoesShow(q: Queue, message: string, kind: string, id: real, duration: Option<int>)
    requires forall i :: 0 <= i < |q| ==> q[i].id != id
    ensures Hide(Show(q, message, kind, id, duration).0, id) == q
  {
    var s := Show(q, message, kind, id, duration).0;
    assert s[..|s| - 1] == q;
    HideAbsentId(q, id);
  }

  /** The four styled kinds; anything else is drawn as information. */
  datatype Style = SuccessStyle | ErrorStyle | WarningStyle | InfoStyle

  /** `getNotificationStyle`: total over every kind string. */
  function StyleOf(kind: string): (r: Style)
    ensures r == SuccessStyle <==> kind == "success"
    ensures r == ErrorStyle <==> kind == "error"
    ensures r == WarningStyle <==> kind == "warning"
    ensures kind !in {"success", "error", "warning"} ==> r == InfoStyle
  {
    if kind == "success" then SuccessStyle
    else if kind == "error" then ErrorStyle
    else if kind == "warning" then WarningStyle
    else InfoStyle
  }

  /** The colour classes of a style: icon background, accent, glow, progress bar and backdrop. */
  datatype Palette = Palette(iconBg: string, accent: string, glow: string, progress: string, gradient: string)

  function PaletteOf(s: Style): (p: Palette)
    ensures p.accent == p.glow == p.progress
  {
    match s
    case SuccessStyle => Palette("bg-green-500", "bg-green-400", "bg-green-400", "bg-green-400", "bg-gradient-to-br from-green-500/90 to-emerald-600/90")
    case ErrorStyle => Palette("bg-red-500", "bg-red-400", "bg-red-400", "bg-red-400", "bg-gradient-to-br from-red-500/90 to-rose-600/90")
    case WarningStyle => Palette("bg-amber-500", "bg-amber-400", "bg-amber-400", "bg-amber-400", "bg-gradient-to-br from-amber-500/90 to-orange-600/90")
    case InfoStyle => Palette("bg-blue-500", "bg-blue-400", "bg-blue-400", "bg-blue-400", "bg-gradient-to-br from-blue-500/90 to-indigo-600/90")
  }

  /** Distinct styles are drawn differently. */
  lemma PalettesAreDistinct(a: Style, b: Style)
    requires a != b
    ensures PaletteOf(a).iconBg != PaletteOf(b).iconBg
  {
  }

  /** "info" and an unknown kind look the same. */
  lemma UnknownKindLooksLikeInfo(kind: string)
    requires kind !in {"success", "error", "warning"}
    ensures PaletteOf(StyleOf(kind)) == PaletteOf(StyleOf("info"))
  {
  }

  /** The two operations the provider hands out. */
  datatype Context = Context(queue: Queue)

  const OutsideProviderMessage := "useNotification must be used within a NotificationProvider"

  /** `useNotification`: the provider's context, or the Error it throws outside one. */
  function UseNotification(context: Option<Context>): (r: Result)
    ensures r.Found? <==> context.Some?
    ensures r.Found? ==> r.context == context.value
    ensures r.Thrown? ==> r.message == OutsideProviderMessage
  {
    if context.Some? then Found(context.value) else Thrown(OutsideProviderMessage)
  }

  datatype Result = Found(context: Context) | Thrown(message: string)
}
