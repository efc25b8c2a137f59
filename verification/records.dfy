/** The loosely-typed collections the report screen and the dashboard read,
    one datatype per entity, with the source's own field names (legacy
    aliases included). Strings use "" for a missing value; values for which
    the source distinguishes null from a falsy value are `Option`s. */
module Records {
  import opened Base

  /** A JSON scalar as a row or a record may hold it. Fractional numbers are
      not modelled. */
  datatype Cell = Null | Str(s: string) | Num(n: int)

  /** A timestamp as read by the platform's date library: the raw string
      stored in the record, its epoch milliseconds, and the renderings the
      screen asks for (`toISOString().slice(0, 10)`, `toLocaleDateString`,
      `toLocaleTimeString` with hours and minutes, `toLocaleString`). */
  datatype Instant = Instant(raw: string, ms: int, isoDay: string, brDay: string, brClock: string, brStamp: string)

  /** A bundle embedded in a production record (`amarrados_detalhados`). */
  datatype Amarrado = Amarrado(
    codigo: string, lote: string, rack: string, produto: string,
    pedido_seq: string, romaneio: string, qt_kg: Cell, qtd_pc: Cell)

  /** A production record (`apontamentos`); `seq_` is the source's `seq` (a
      reserved word here). `lotes_externos` is `None` when
      the field is not an array; `amarrados_detalhados` is empty when absent. */
  datatype Apontamento = Apontamento(
    id: string, inicio: Option<Instant>, fim: Option<Instant>,
    maquina: string, operador: string, produto: string, codigoPerfil: string,
    quantidade: int, qtd_refugo: int,
    ordemTrabalho: string, ordem_trabalho: string, pedido_seq: string, pedidoSeq: string,
    pedido: Option<string>, numeroPedido: Option<string>, seq_: string, sequencia: string,
    rack_ou_pallet: string, rackOuPallet: string,
    qtd_pedido: Option<int>, qtdPedido: Option<int>, separado: Option<int>, qtd_separado: Option<int>,
    lote: string, lotes_externos: Option<seq<string>>, lote_externo: string,
    amarrados_detalhados: seq<Amarrado>)

  /** A downtime record as stored: start and end under either spelling. */
  datatype Parada = Parada(
    maquina: string,
    inicio: Option<Instant>, inicio_timestamp: Option<Instant>,
    fim: Option<Instant>, fim_timestamp: Option<Instant>,
    motivo_parada: string, motivoParada: string, tipo_parada: string, tipoParada: string)

  /** A lot of the external catalogue (`lotes`). Numeric fields are already
      read with `Number(x || 0)`, non-numbers as 0. */
  datatype Lote = Lote(
    lote: string, codigo: string, rack_embalagem: string, produto: string,
    pedido_seq: string, romaneio: string, qt_kg: int, qtd_pc: int,
    dados_originais: seq<(string, string)>)

  /** A packaging configuration per tool (`ferramentas_cfg`). */
  datatype FerramentaCfg = FerramentaCfg(
    ferramenta: string, embalagem: string, comprimento_mm: int,
    pcs_por_pallet: int, ripas_por_pallet: int, pcs_por_caixa: int)

  /** A machine of the catalogue (`maquinas`). */
  datatype Maquina = Maquina(id: string, nome: string, codigo: string, modelo: string)

  /** An order (`pedidos`), as the dashboard reads it. */
  datatype Pedido = Pedido(
    id: string, pedido_seq: string, nro_op: string, produto: string, status: string,
    qtd_pedido: int, separado: int, operacao_atual: string)

  /** `a.produto || a.codigoPerfil`: the product code of a record. */
  function CodigoProduto(a: Apontamento): (r: string)
    ensures a.produto != "" ==> r == a.produto
    ensures a.produto == "" ==> r == a.codigoPerfil
  {
    Or(a.produto, a.codigoPerfil)
  }
}
