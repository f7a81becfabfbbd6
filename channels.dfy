/**
 * The two outside services: the Telegram Bot API and the Supabase `cotizaciones` table.
 * Both are one `Network` object whose fields say whether each is reachable and record
 * what each has received.
 */
module Channels {
  import opened Wrappers
  import opened Text
  import opened Files
  import opened DolarServices

  /** An HTTP status the insert treats as a failure: anything but 200 and 201. */
  type FailureStatus = s: nat | s != 200 && s != 201 witness 500

  /** How the Supabase REST endpoint answers a POST: 200/201, another status, or no answer. */
  datatype RemoteState = Accepting | Rejecting(status: FailureStatus) | Unreachable

  /** One row of the `cotizaciones` table. */
  datatype RemoteRow = RemoteRow(dolarName: string, compra: real, venta: real, diffCompra: real, diffVenta: real,
                                 pctCompra: real, pctVenta: real, timestamp: string)

  /** The chat a message goes to: `TELEGRAM_CHAT_ID` from the environment, or the chat of an update. */
  datatype Chat = ConfiguredChat | ChatId(id: int)

  /** One instrument of a scheduler alert: its title, the new pair, the two markers and the change. */
  datatype AlertBlock = AlertBlock(title: string, compra: real, venta: real,
                                   markerCompra: string, markerVenta: string, delta: Delta)

  /**
   * A Telegram message: fixed text, a `format_message` report, or a scheduler alert (blocks
   * joined by a blank line, under an optional header).
   */
  datatype Body =
    | Plain(text: string)
    | Report(formatted: Formatted)
    | Alert(header: Option<string>, blocks: seq<AlertBlock>)

  datatype Outgoing = Outgoing(chat: Chat, body: Body)

  class Network {
    /** Both `SUPABASE_URL` and `SUPABASE_API_KEY` are set. */
    const remoteConfigured: bool
    const remoteState: RemoteState
    /** Rows the `cotizaciones` table has accepted. */
    var remoteRows: seq<RemoteRow>
    /** Whether the Bot API accepts `sendMessage`. */
    const telegramUp: bool
    /** Messages Telegram has accepted, in order. */
    var sent: seq<Outgoing>

    constructor(remoteConfigured: bool, remoteState: RemoteState, telegramUp: bool)
      ensures this.remoteConfigured == remoteConfigured && this.remoteState == remoteState
      ensures this.telegramUp == telegramUp
      ensures remoteRows == [] && sent == []
    {
      this.remoteConfigured := remoteConfigured;
      this.remoteState := remoteState;
      this.telegramUp := telegramUp;
      remoteRows := [];
      sent := [];
    }

    /** `sendMessage`; `ok` is false when the call raised. */
    method Send(chat: Chat, body: Body) returns (ok: bool)
      modifies this`sent
      ensures ok == telegramUp
      ensures sent == old(sent) + (if telegramUp then [Outgoing(chat, body)] else [])
    {
      ok := telegramUp;
      if telegramUp {
        sent := sent + [Outgoing(chat, body)];
      }
    }

    /** POST to `/rest/v1/cotizaciones`; the answer is the endpoint's state. */
    method Post(row: RemoteRow) returns (answer: RemoteState)
      modifies this`remoteRows
      ensures answer == remoteState
      ensures remoteRows == old(remoteRows) + (if remoteState.Accepting? then [row] else [])
    {
      answer := remoteState;
      if remoteState.Accepting? {
        remoteRows := remoteRows + [row];
      }
    }
  }

  /** What storage/supabase_client.py logs for one insert. */
  function RemoteErrors(configured: bool, state: RemoteState): (msgs: seq<string>)
    ensures msgs == [] <==> configured && state.Accepting?
  {
    if !configured then ["Faltan variables de entorno para Supabase. Omitiendo guardado."]
    else match state
      case Accepting => []
      case Rejecting(status) => ["Error guardando en Supabase (status " + NatToString(status) + ")"]
      case Unreachable => ["Excepción conectando a Supabase"]
  }

  /**
   * storage/supabase_client.py `insertar_cotizacion_supabase`: skipped with a log line when the
   * environment is incomplete; a refused or failed POST is logged, never raised.
   */
  method InsertCotizacionSupabase(net: Network, disk: Disk, row: RemoteRow)
    modifies net`remoteRows, disk`errorLog
    ensures net.remoteRows == old(net.remoteRows) + (if net.remoteConfigured && net.remoteState.Accepting? then [row] else [])
    ensures disk.errorLog == old(disk.errorLog) + RemoteErrors(net.remoteConfigured, net.remoteState)
  {
    if !net.remoteConfigured {
      disk.LogError("Faltan variables de entorno para Supabase. Omitiendo guardado.");
      return;
    }
    var answer := net.Post(row);
    match answer {
      case Accepting =>
      case Rejecting(status) =>
        disk.LogError("Error guardando en Supabase (status " + NatToString(status) + ")");
      case Unreachable =>
        disk.LogError("Excepción conectando a Supabase");
    }
  }

  /** What `safe_send_message` logs. */
  function SendErrors(up: bool): seq<string> {
    if up then [] else ["Error enviando mensaje de Telegram"]
  }

  /** `safe_send_message`: a failed send is logged, never raised. */
  method SafeSendMessage(net: Network, disk: Disk, chat: Chat, body: Body)
    modifies net`sent, disk`errorLog
    ensures net.sent == old(net.sent) + (if net.telegramUp then [Outgoing(chat, body)] else [])
    ensures disk.errorLog == old(disk.errorLog) + SendErrors(net.telegramUp)
  {
    var ok := net.Send(chat, body);
    if !ok {
      disk.LogError("Error enviando mensaje de Telegram");
    }
  }
}
