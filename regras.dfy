/** The business rules of the ledger as values: history records, the withdrawal
    and deposit decisions of the two account kinds, and the effect that
    registering one transaction has on an account's balance and history.
    The methods of SistemaBancario that move money or journal it
    (`Historico.AdicionarTransacao`, `Conta.SacarBase`/`Sacar`/`Depositar`,
    `Registrar`, `Cliente.RealizarTransacao`) are proved against these functions. */
module Regras {

  /** An amount of money in centavos (R$ 500,00 is 50000). */
  type Valor = int

  /** The timestamp text a history record carries; the clock is outside the model. */
  type Data = string

  /** The `tipo` of a record: the class name of the transaction that produced it. */
  datatype Tipo = Saque | Deposito

  /** A withdrawal or deposit request (`Saque(valor)` / `Deposito(valor)`). */
  datatype Transacao = Transacao(tipo: Tipo, valor: Valor)

  /** One entry of an account's history: `{tipo, valor, data}`. */
  datatype Registro = Registro(tipo: Tipo, valor: Valor, data: Data)

  /** Why an operation was refused; each one stands for a failure message of the source. */
  datatype Motivo =
    | SaldoInsuficiente   // amount above the balance
    | ValorInvalido       // amount not positive
    | LimiteExcedido      // amount above the checking account's per-withdrawal limit
    | SaquesExcedidos     // checking account already has its maximum number of withdrawals
    | ContaAlheia         // account does not belong to the client

  /** `Sucesso` is the source's `True`, `Falha` its `False` with the reason attached. */
  datatype Status = Sucesso | Falha(motivo: Motivo)

  /** The withdrawal rules of an account: the base account, or a checking
      account with a per-withdrawal limit and a maximum number of withdrawals. */
  datatype Politica = Base | Corrente(limite: Valor, limiteSaques: int)

  const AGENCIA: string := "0001"
  const LIMITE_PADRAO: Valor := 50000
  const LIMITE_SAQUES_PADRAO: int := 3
  const CORRENTE_PADRAO: Politica := Corrente(LIMITE_PADRAO, LIMITE_SAQUES_PADRAO)

  /** The record `Historico.adicionar_transacao` builds for a transaction. */
  function RegistroDe(t: Transacao, data: Data): Registro {
    Registro(t.tipo, t.valor, data)
  }

  /** The withdrawal records of a history, in order: what a checking account counts. */
  function Saques(h: seq<Registro>): (s: seq<Registro>)
    ensures |s| <= |h|
    ensures forall i :: 0 <= i < |s| ==> s[i].tipo == Saque && s[i] in h
    ensures forall i :: 0 <= i < |h| && h[i].tipo == Saque ==> h[i] in s
  {
    if h == [] then []
    else if h[0].tipo == Saque then [h[0]] + Saques(h[1..])
    else Saques(h[1..])
  }

  lemma {:induction false} SaquesConcat(h: seq<Registro>, d: seq<Registro>)
    ensures Saques(h + d) == Saques(h) + Saques(d)
  {
    if h == [] {
      assert h + d == d;
    } else {
      assert (h + d)[0] == h[0];
      assert (h + d)[1..] == h[1..] + d;
      SaquesConcat(h[1..], d);
    }
  }

  /** A record's contribution to the balance: deposits add, withdrawals subtract. */
  function Assinado(r: Registro): Valor {
    if r.tipo == Deposito then r.valor else -r.valor
  }

  /** The balance a history accounts for. */
  function Soma(h: seq<Registro>): Valor {
    if h == [] then 0 else Assinado(h[0]) + Soma(h[1..])
  }

  lemma {:induction false} SomaConcat(h: seq<Registro>, d: seq<Registro>)
    ensures Soma(h + d) == Soma(h) + Soma(d)
  {
    if h == [] {
      assert h + d == d;
    } else {
      assert (h + d)[0] == h[0];
      assert (h + d)[1..] == h[1..] + d;
      SomaConcat(h[1..], d);
    }
  }

  /** `Conta.sacar`: the balance is checked before the sign of the amount. */
  function DecisaoSaqueBase(saldo: Valor, valor: Valor): (r: Status)
    ensures r == Sucesso <==> 0 < valor <= saldo
    ensures valor > saldo ==> r == Falha(SaldoInsuficiente)
    ensures r != Sucesso && valor <= saldo ==> r == Falha(ValorInvalido)
  {
    if valor > saldo then Falha(SaldoInsuficiente)
    else if valor > 0 then Sucesso
    else Falha(ValorInvalido)
  }

  /** The withdrawal decision of an account: for a checking account the
      per-withdrawal limit first, then the number of withdrawals in the whole
      history, then the base rules. */
  function DecisaoSaque(p: Politica, saldo: Valor, h: seq<Registro>, valor: Valor): (r: Status)
    ensures r == Sucesso <==>
      0 < valor <= saldo && (p.Corrente? ==> valor <= p.limite && |Saques(h)| < p.limiteSaques)
    ensures p.Corrente? && valor > p.limite ==> r == Falha(LimiteExcedido)
    ensures p.Corrente? && valor <= p.limite && |Saques(h)| >= p.limiteSaques ==> r == Falha(SaquesExcedidos)
    ensures p.Base? || (valor <= p.limite && |Saques(h)| < p.limiteSaques) ==> r == DecisaoSaqueBase(saldo, valor)
  {
    match p
    case Base => DecisaoSaqueBase(saldo, valor)
    case Corrente(limite, limiteSaques) =>
      if valor > limite then Falha(LimiteExcedido)
      else if |Saques(h)| >= limiteSaques then Falha(SaquesExcedidos)
      else DecisaoSaqueBase(saldo, valor)
  }

  /** `Conta.depositar`. */
  function DecisaoDeposito(valor: Valor): (r: Status)
    ensures r == Sucesso <==> valor > 0
    ensures r != Sucesso ==> r == Falha(ValorInvalido)
  {
    if valor > 0 then Sucesso else Falha(ValorInvalido)
  }

  /** What an account is, as far as the rules are concerned. */
  datatype Estado = Estado(saldo: Valor, historico: seq<Registro>)

  /** The account after a transaction was registered on it, and the outcome. */
  datatype Passo = Passo(estado: Estado, status: Status)

  /** Registering transaction `t` on an account: the account's operation
      decides, and only a successful one is journaled. */
  function Efeito(p: Politica, e: Estado, t: Transacao, data: Data): (r: Passo)
    ensures r.status == Sucesso <==>
      if t.tipo == Saque then DecisaoSaque(p, e.saldo, e.historico, t.valor) == Sucesso
      else t.valor > 0
    ensures t.tipo == Saque ==> r.status == DecisaoSaque(p, e.saldo, e.historico, t.valor)
    ensures t.tipo == Deposito ==> r.status == DecisaoDeposito(t.valor)
    ensures r.status == Sucesso ==>
      r.estado.historico == e.historico + [RegistroDe(t, data)] &&
      r.estado.saldo == e.saldo + Assinado(RegistroDe(t, data))
    ensures r.status != Sucesso ==> r.estado == e
    ensures |r.estado.historico| == |e.historico| + (if r.status == Sucesso then 1 else 0)
  {
    match t.tipo
    case Saque =>
      var s := DecisaoSaque(p, e.saldo, e.historico, t.valor);
      if s == Sucesso then Passo(Estado(e.saldo - t.valor, e.historico + [RegistroDe(t, data)]), s)
      else Passo(e, s)
    case Deposito =>
      var s := DecisaoDeposito(t.valor);
      if s == Sucesso then Passo(Estado(e.saldo + t.valor, e.historico + [RegistroDe(t, data)]), s)
      else Passo(e, s)
  }

  /** A transaction together with the time it is registered at. */
  datatype Operacao = Operacao(transacao: Transacao, data: Data)

  /** An account after a sequence of transactions was registered on it, in order. */
  function Executar(p: Politica, e: Estado, ops: seq<Operacao>): Estado
    decreases |ops|
  {
    if ops == [] then e
    else Executar(p, Efeito(p, e, ops[0].transacao, ops[0].data).estado, ops[1..])
  }

  /** A transaction with a non-positive amount is always refused and changes nothing. */
  lemma ValorNaoPositivoRecusado(p: Politica, e: Estado, t: Transacao, data: Data)
    requires t.valor <= 0
    ensures Efeito(p, e, t, data).status != Sucesso
    ensures Efeito(p, e, t, data).estado == e
  {
  }

  /** A checking account refuses any withdrawal above its limit, whatever the balance and history. */
  lemma LimiteIndependeDoSaldo(limite: Valor, limiteSaques: int, e: Estado, valor: Valor, data: Data)
    requires valor > limite
    ensures Efeito(Corrente(limite, limiteSaques), e, Transacao(Saque, valor), data) ==
            Passo(e, Falha(LimiteExcedido))
  {
  }

  /** Registering a transaction keeps the balance equal to what the history accounts for. */
  lemma EfeitoEscriturado(p: Politica, e: Estado, t: Transacao, data: Data)
    requires e.saldo == Soma(e.historico)
    ensures Efeito(p, e, t, data).estado.saldo == Soma(Efeito(p, e, t, data).estado.historico)
  {
    var r := Efeito(p, e, t, data);
    if r.status == Sucesso {
      SomaConcat(e.historico, [RegistroDe(t, data)]);
      assert Soma([RegistroDe(t, data)]) == Assinado(RegistroDe(t, data));
    }
  }

  /** After any sequence of registrations the balance is the signed sum of the history. */
  lemma {:induction false} ExecutarEscriturado(p: Politica, e: Estado, ops: seq<Operacao>)
    requires e.saldo == Soma(e.historico)
    ensures Executar(p, e, ops).saldo == Soma(Executar(p, e, ops).historico)
    decreases |ops|
  {
    if ops != [] {
      EfeitoEscriturado(p, e, ops[0].transacao, ops[0].data);
      ExecutarEscriturado(p, Efeito(p, e, ops[0].transacao, ops[0].data).estado, ops[1..]);
    }
  }

  /** A balance that starts non-negative stays non-negative. */
  lemma {:induction false} ExecutarSaldoNaoNegativo(p: Politica, e: Estado, ops: seq<Operacao>)
    requires e.saldo >= 0
    ensures Executar(p, e, ops).saldo >= 0
    decreases |ops|
  {
    if ops != [] {
      ExecutarSaldoNaoNegativo(p, Efeito(p, e, ops[0].transacao, ops[0].data).estado, ops[1..]);
    }
  }

  /** The history is append-only: what was there before stays, in place. */
  lemma {:induction false} ExecutarSoAcrescenta(p: Politica, e: Estado, ops: seq<Operacao>)
    ensures e.historico <= Executar(p, e, ops).historico
    decreases |ops|
  {
    if ops != [] {
      var e' := Efeito(p, e, ops[0].transacao, ops[0].data).estado;
      ExecutarSoAcrescenta(p, e', ops[1..]);
    }
  }

  /** Extending a history never lowers its withdrawal count. */
  lemma SaquesCrescem(h: seq<Registro>, h': seq<Registro>)
    requires h <= h'
    ensures |Saques(h)| <= |Saques(h')|
  {
  }

  /** A checking account that starts within its withdrawal maximum never exceeds it. */
  lemma {:induction false} ExecutarRespeitaLimiteDeSaques(p: Politica, e: Estado, ops: seq<Operacao>)
    requires p.Corrente? && |Saques(e.historico)| <= p.limiteSaques
    ensures |Saques(Executar(p, e, ops).historico)| <= p.limiteSaques
    decreases |ops|
  {
    if ops != [] {
      var t, data := ops[0].transacao, ops[0].data;
      var r := Efeito(p, e, t, data);
      if r.status == Sucesso {
        SaquesConcat(e.historico, [RegistroDe(t, data)]);
        assert Saques([RegistroDe(t, data)]) == if t.tipo == Saque then [RegistroDe(t, data)] else [];
      }
      ExecutarRespeitaLimiteDeSaques(p, r.estado, ops[1..]);
    }
  }

  /** The withdrawal count never resets: once a checking account has reached
      its maximum, every later withdrawal is refused, whatever happens in between. */
  lemma SaquesEsgotadosParaSempre(p: Politica, e: Estado, ops: seq<Operacao>, valor: Valor)
    requires p.Corrente? && |Saques(e.historico)| >= p.limiteSaques
    ensures DecisaoSaque(p, Executar(p, e, ops).saldo, Executar(p, e, ops).historico, valor) != Sucesso
  {
    ExecutarSoAcrescenta(p, e, ops);
    SaquesCrescem(e.historico, Executar(p, e, ops).historico);
  }
}
